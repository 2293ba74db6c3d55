/** The brace depth and string state of a text, tracked one character at a time. Every value the
    reader accepts leaves this scan balanced, while a proper prefix of a written record is still
    inside its outer brace: so no torn record can be read. */
module JsonScan {
  import opened Json
  import opened JsonFacts

  datatype Mode = Plain | InString | Escaped

  datatype Cursor = Cursor(depth: int, mode: Mode)

  function Step(p: Cursor, c: char): Cursor {
    match p.mode
    case Plain =>
      if c == '"' then p.(mode := InString)
      else if c == '{' || c == '[' then p.(depth := p.depth + 1)
      else if c == '}' || c == ']' then p.(depth := p.depth - 1)
      else p
    case InString =>
      if c == '\\' then p.(mode := Escaped) else if c == '"' then p.(mode := Plain) else p
    case Escaped => p.(mode := InString)
  }

  function Scan(p: Cursor, s: string): Cursor
    decreases |s|
  {
    if s == "" then p else Scan(Step(p, s[0]), s[1..])
  }

  lemma {:induction false} ScanConcat(p: Cursor, a: string, b: string)
    ensures Scan(p, a + b) == Scan(Scan(p, a), b)
    decreases |a|
  {
    if a == "" {
      assert a + b == b;
    } else {
      assert (a + b)[1..] == a[1..] + b;
      ScanConcat(Step(p, a[0]), a[1..], b);
    }
  }

  /******* What the reader consumes is balanced *******/

  // `s` is `used` followed by `rest`, and reading `used` from `p` ends at `q`.
  ghost predicate Consumes(p: Cursor, s: string, q: Cursor, rest: string) {
    && |rest| <= |s|
    && s[|s| - |rest|..] == rest
    && Scan(p, s[..|s| - |rest|]) == q
  }

  lemma ConsumesChain(p: Cursor, s: string, q: Cursor, t: string, r: Cursor, rest: string)
    requires Consumes(p, s, q, t) && Consumes(q, t, r, rest)
    ensures Consumes(p, s, r, rest)
  {
    var i, j := |s| - |t|, |t| - |rest|;
    assert s[..i + j] == s[..i] + t[..j];
    assert s[i + j..] == t[j..];
    ScanConcat(p, s[..i], t[..j]);
  }

  lemma ConsumesOne(p: Cursor, s: string)
    requires s != ""
    ensures Consumes(p, s, Step(p, s[0]), s[1..])
  {
    assert s[..1] == [s[0]];
    assert Scan(p, [s[0]]) == Scan(Step(p, s[0]), [s[0]][1..]);
  }

  lemma ConsumesNothing(p: Cursor, s: string)
    ensures Consumes(p, s, p, s)
  {
    assert s[..0] == "";
  }

  lemma {:induction false} WhitespaceScan(d: int, s: string)
    ensures Consumes(Cursor(d, Plain), s, Cursor(d, Plain), SkipWhitespace(s))
  {
    hide Consumes;
    var p := Cursor(d, Plain);
    if s != "" && IsWhitespace(s[0]) {
      ConsumesOne(p, s);
      WhitespaceScan(d, s[1..]);
      ConsumesChain(p, s, p, s[1..], p, SkipWhitespace(s[1..]));
    } else {
      ConsumesNothing(p, s);
    }
  }

  // Characters that neither open nor close anything leave the cursor alone.
  lemma {:induction false} QuietScan(p: Cursor, s: string, n: nat)
    requires n <= |s|
    requires forall i :: 0 <= i < n ==> Step(p, s[i]) == p
    ensures Consumes(p, s, p, s[n..])
  {
    if n == 0 {
      assert s[..0] == "" && s[0..] == s;
    } else {
      ConsumesOne(p, s);
      forall i | 0 <= i < n - 1 ensures Step(p, s[1..][i]) == p {
        assert s[1..][i] == s[i + 1];
      }
      QuietScan(p, s[1..], n - 1);
      assert s[1..][n - 1..] == s[n..];
      ConsumesChain(p, s, p, s[1..], p, s[n..]);
    }
  }

  predicate IsHex(c: char) {
    HexValue(c).Ok?
  }

  lemma Hex4Scan(d: int, s: string)
    requires ParseHex4(s).Ok?
    ensures Consumes(Cursor(d, InString), s, Cursor(d, InString), ParseHex4(s).rest)
  {
    assert IsHex(s[0]) && IsHex(s[1]) && IsHex(s[2]) && IsHex(s[3]);
    QuietScan(Cursor(d, InString), s, 4);
  }

  // After the backslash: one character, or `u` and hexadecimal digits.
  lemma EscapeScan(d: int, s: string)
    requires ParseEscape(s).Ok?
    ensures Consumes(Cursor(d, Escaped), s, Cursor(d, InString), ParseEscape(s).rest)
  {
    var p, q := Cursor(d, Escaped), Cursor(d, InString);
    ConsumesOne(p, s);
    if s[0] == 'u' {
      var t := s[1..];
      Hex4Scan(d, t);
      var r := ParseHex4(t).rest;
      ConsumesChain(p, s, q, t, q, r);
      if ParseEscape(s).rest != r {
        ConsumesOne(q, r);
        ConsumesOne(p, r[1..]);
        assert r[1..][1..] == r[2..];
        ConsumesChain(q, r, p, r[1..], q, r[2..]);
        Hex4Scan(d, r[2..]);
        ConsumesChain(q, r, q, r[2..], q, ParseHex4(r[2..]).rest);
        ConsumesChain(p, s, q, r, q, ParseHex4(r[2..]).rest);
      }
    }
  }

  lemma {:induction false} CharsScan(d: int, s: string)
    requires ParseChars(s).Ok?
    ensures Consumes(Cursor(d, InString), s, Cursor(d, Plain), ParseChars(s).rest)
    decreases |s|
  {
    var p, q := Cursor(d, InString), Cursor(d, Plain);
    ConsumesOne(p, s);
    if s[0] != '"' {
      var first := if s[0] == '\\' then ParseEscape(s[1..]) else Ok(s[0], s[1..]);
      if s[0] == '\\' {
        EscapeScan(d, s[1..]);
        ConsumesChain(p, s, Cursor(d, Escaped), s[1..], p, first.rest);
      }
      CharsScan(d, first.rest);
      ConsumesChain(p, s, p, first.rest, q, ParseChars(first.rest).rest);
    }
  }

  lemma {:induction false} DigitsScan(d: int, s: string, acc: nat)
    ensures Consumes(Cursor(d, Plain), s, Cursor(d, Plain), ParseDigits(s, acc).1)
    decreases |s|
  {
    hide Consumes;
    var p := Cursor(d, Plain);
    if s != "" && IsDigit(s[0]) {
      var acc' := acc * 10 + (s[0] as int - '0' as int);
      ConsumesOne(p, s);
      DigitsScan(d, s[1..], acc');
      ConsumesChain(p, s, p, s[1..], p, ParseDigits(s[1..], acc').1);
    } else {
      ConsumesNothing(p, s);
    }
  }

  lemma NumberScan(d: int, s: string)
    requires ParseNumber(s).Ok?
    ensures Consumes(Cursor(d, Plain), s, Cursor(d, Plain), ParseNumber(s).rest)
  {
    hide Consumes, ParseDigits;
    var p := Cursor(d, Plain);
    var t := if s[0] == '-' then s[1..] else s;
    ConsumesOne(p, s);
    ConsumesOne(p, t);
    if s[0] == '-' {
      ConsumesChain(p, s, p, t, p, t[1..]);
    }
    if t[0] != '0' {
      var acc := t[0] as int - '0' as int;
      DigitsScan(d, t[1..], acc);
      ConsumesChain(p, s, p, t[1..], p, ParseDigits(t[1..], acc).1);
    }
  }

  lemma LiteralScan(d: int, s: string, literal: string, v: Value)
    requires literal == "null" || literal == "true" || literal == "false"
    requires ParseLiteral(s, literal, v).Ok?
    ensures Consumes(Cursor(d, Plain), s, Cursor(d, Plain), ParseLiteral(s, literal, v).rest)
  {
    forall i | 0 <= i < |literal| ensures Step(Cursor(d, Plain), s[i]) == Cursor(d, Plain) {
      assert s[i] == literal[i];
    }
    QuietScan(Cursor(d, Plain), s, |literal|);
  }

  lemma {:induction false} ValueScan(d: int, s: string)
    requires ParseValue(s).Ok?
    ensures Consumes(Cursor(d, Plain), s, Cursor(d, Plain), ParseValue(s).rest)
    decreases |s|, 0
  {
    if s[0] == '"' {
      QuotedScan(d, s);
    } else if s[0] == '[' {
      var t := SkipWhitespace(s[1..]);
      if t[0] != ']' { ItemsScan(d, t); }
      BracketScan(d, s, ']', ParseValue(s).rest);
    } else if s[0] == '{' {
      var t := SkipWhitespace(s[1..]);
      if t[0] != '}' { MembersScan(d, t); }
      BracketScan(d, s, '}', ParseValue(s).rest);
    } else if s[0] == 'n' {
      LiteralScan(d, s, "null", Null);
    } else if s[0] == 't' {
      LiteralScan(d, s, "true", Bool(true));
    } else if s[0] == 'f' {
      LiteralScan(d, s, "false", Bool(false));
    } else {
      NumberScan(d, s);
    }
  }

  lemma QuotedScan(d: int, s: string)
    requires s != "" && s[0] == '"' && ParseChars(s[1..]).Ok?
    ensures Consumes(Cursor(d, Plain), s, Cursor(d, Plain), ParseChars(s[1..]).rest)
  {
    ConsumesOne(Cursor(d, Plain), s);
    CharsScan(d, s[1..]);
    ConsumesChain(Cursor(d, Plain), s, Cursor(d, InString), s[1..], Cursor(d, Plain), ParseChars(s[1..]).rest);
  }

  // An opening bracket, whitespace, and then the matching close or a balanced body.
  lemma BracketScan(d: int, s: string, close: char, rest: string)
    requires s != "" && (s[0] == '[' || s[0] == '{') && (close == ']' || close == '}')
    requires SkipWhitespace(s[1..]) != ""
    requires var t := SkipWhitespace(s[1..]);
      if t[0] == close then rest == t[1..] else Consumes(Cursor(d + 1, Plain), t, Cursor(d, Plain), rest)
    ensures Consumes(Cursor(d, Plain), s, Cursor(d, Plain), rest)
  {
    var p, inner := Cursor(d, Plain), Cursor(d + 1, Plain);
    var t := SkipWhitespace(s[1..]);
    ConsumesOne(p, s);
    WhitespaceScan(d + 1, s[1..]);
    ConsumesChain(p, s, inner, s[1..], inner, t);
    if t[0] == close {
      ConsumesOne(inner, t);
    }
    ConsumesChain(p, s, inner, t, p, rest);
  }

  // Whitespace and one more character.
  lemma PunctuationScan(p: Cursor, d: int, s: string, rest: string)
    requires Consumes(p, s, Cursor(d, Plain), rest) && SkipWhitespace(rest) != ""
    ensures var t := SkipWhitespace(rest);
            Consumes(p, s, Step(Cursor(d, Plain), t[0]), t[1..])
  {
    var q := Cursor(d, Plain);
    var t := SkipWhitespace(rest);
    WhitespaceScan(d, rest);
    ConsumesChain(p, s, q, rest, q, t);
    ConsumesOne(q, t);
    ConsumesChain(p, s, q, t, Step(q, t[0]), t[1..]);
  }

  lemma ThenWhitespace(p: Cursor, d: int, s: string, rest: string)
    requires Consumes(p, s, Cursor(d, Plain), rest)
    ensures Consumes(p, s, Cursor(d, Plain), SkipWhitespace(rest))
  {
    WhitespaceScan(d, rest);
    ConsumesChain(p, s, Cursor(d, Plain), rest, Cursor(d, Plain), SkipWhitespace(rest));
  }

  lemma {:induction false} ItemsScan(d: int, s: string)
    requires ParseItems(s).Ok?
    ensures Consumes(Cursor(d + 1, Plain), s, Cursor(d, Plain), ParseItems(s).rest)
    decreases |s|, 1
  {
    var p := Cursor(d + 1, Plain);
    ValueScan(d + 1, s);
    var rest := ParseValue(s).rest;
    var t := SkipWhitespace(rest);
    PunctuationScan(p, d + 1, s, rest);
    if t[0] == ',' {
      var u := SkipWhitespace(t[1..]);
      ThenWhitespace(p, d + 1, s, t[1..]);
      ItemsScan(d, u);
      ConsumesChain(p, s, p, u, Cursor(d, Plain), ParseItems(u).rest);
    }
  }

  lemma {:induction false} MemberScan(d: int, s: string)
    requires ParseMember(s).Ok?
    ensures Consumes(Cursor(d, Plain), s, Cursor(d, Plain), ParseMember(s).rest)
    decreases |s|, 1
  {
    var p := Cursor(d, Plain);
    QuotedScan(d, s);
    var rest := ParseChars(s[1..]).rest;
    var t := SkipWhitespace(rest);
    PunctuationScan(p, d, s, rest);
    ThenWhitespace(p, d, s, t[1..]);
    var u := SkipWhitespace(t[1..]);
    ValueScan(d, u);
    ConsumesChain(p, s, p, u, p, ParseValue(u).rest);
  }

  lemma {:induction false} MembersScan(d: int, s: string)
    requires ParseMembers(s).Ok?
    ensures Consumes(Cursor(d + 1, Plain), s, Cursor(d, Plain), ParseMembers(s).rest)
    decreases |s|, 2
  {
    var p := Cursor(d + 1, Plain);
    MemberScan(d + 1, s);
    var rest := ParseMember(s).rest;
    var t := SkipWhitespace(rest);
    PunctuationScan(p, d + 1, s, rest);
    if t[0] == ',' {
      var u := SkipWhitespace(t[1..]);
      ThenWhitespace(p, d + 1, s, t[1..]);
      MembersScan(d, u);
      ConsumesChain(p, s, p, u, Cursor(d, Plain), ParseMembers(u).rest);
    }
  }

  /******* Written text is balanced and never dips below its starting depth *******/

  ghost predicate Above(p: Cursor, s: string, floor: int)
    decreases |s|
  {
    p.depth >= floor && (s != "" ==> Above(Step(p, s[0]), s[1..], floor))
  }

  ghost predicate Spans(p: Cursor, s: string, q: Cursor, floor: int) {
    Scan(p, s) == q && Above(p, s, floor)
  }

  lemma {:induction false} AboveAt(p: Cursor, s: string, floor: int, k: nat)
    requires Above(p, s, floor) && k <= |s|
    ensures Scan(p, s[..k]).depth >= floor
    decreases |s|
  {
    if k == 0 {
      assert s[..0] == "";
    } else {
      AboveAt(Step(p, s[0]), s[1..], floor, k - 1);
      assert s[..k][1..] == s[1..][..k - 1];
    }
  }

  lemma {:induction false} SpansConcat(p: Cursor, a: string, q: Cursor, b: string, r: Cursor, floor: int)
    requires Spans(p, a, q, floor) && Spans(q, b, r, floor)
    ensures Spans(p, a + b, r, floor)
    decreases |a|
  {
    ScanConcat(p, a, b);
    if a == "" {
      assert a + b == b;
    } else {
      assert (a + b)[1..] == a[1..] + b;
      SpansConcat(Step(p, a[0]), a[1..], q, b, r, floor);
    }
  }

  lemma SpansOne(p: Cursor, c: char, floor: int)
    requires p.depth >= floor && Step(p, c).depth >= floor
    ensures Spans(p, [c], Step(p, c), floor)
  {
    assert [c][1..] == "";
  }

  lemma {:induction false} QuietSpan(p: Cursor, s: string)
    requires forall i :: 0 <= i < |s| ==> Step(p, s[i]) == p
    ensures Spans(p, s, p, p.depth)
    decreases |s|
  {
    if s != "" {
      forall i | 0 <= i < |s| - 1 ensures Step(p, s[1..][i]) == p {
        assert s[1..][i] == s[i + 1];
      }
      QuietSpan(p, s[1..]);
    }
  }

  lemma Hex4Quiet(p: Cursor, u: nat)
    requires u < 0x1_0000 && p.mode == InString
    ensures Spans(p, Hex4(u), p, p.depth)
  {
    HexRoundTrip(u / 4096);
    HexRoundTrip(u / 256 % 16);
    HexRoundTrip(u / 16 % 16);
    HexRoundTrip(u % 16);
    QuietSpan(p, Hex4(u));
  }

  lemma BackslashSpan(d: int, c: char)
    ensures Spans(Cursor(d, InString), ['\\', c], Cursor(d, InString), d)
  {
    SpansOne(Cursor(d, InString), '\\', d);
    SpansOne(Cursor(d, Escaped), c, d);
    SpansConcat(Cursor(d, InString), "\\", Cursor(d, Escaped), [c], Cursor(d, InString), d);
    assert "\\" + [c] == ['\\', c];
  }

  lemma UnicodeSpan(d: int, u: nat)
    requires u < 0x1_0000
    ensures Spans(Cursor(d, InString), "\\u" + Hex4(u), Cursor(d, InString), d)
  {
    var p := Cursor(d, InString);
    BackslashSpan(d, 'u');
    assert "\\u" == ['\\', 'u'];
    Hex4Quiet(p, u);
    SpansConcat(p, "\\u", p, Hex4(u), p, d);
  }

  lemma EscapeCharSpan(d: int, c: char)
    ensures Spans(Cursor(d, InString), EscapeChar(c), Cursor(d, InString), d)
  {
    var p := Cursor(d, InString);
    var u := c as int;
    if c == '"' || c == '\\' {
      BackslashSpan(d, c);
      assert EscapeChar(c) == ['\\', c];
    } else if c == '\n' || c == '\r' || c == '\t' {
      BackslashSpan(d, EscapeChar(c)[1]);
      assert EscapeChar(c) == ['\\', EscapeChar(c)[1]];
    } else if ' ' <= c <= '~' {
      SpansOne(p, c, d);
    } else if u < 0x1_0000 {
      UnicodeSpan(d, u);
    } else {
      var hi, lo := 0xD800 + (u - 0x1_0000) / 1024, 0xDC00 + (u - 0x1_0000) % 1024;
      UnicodeSpan(d, hi);
      UnicodeSpan(d, lo);
      SpansConcat(p, "\\u" + Hex4(hi), p, "\\u" + Hex4(lo), p, d);
      assert EscapeChar(c) == ("\\u" + Hex4(hi)) + ("\\u" + Hex4(lo));
    }
  }

  lemma {:induction false} EscapeSpan(d: int, s: string)
    ensures Spans(Cursor(d, InString), Escape(s), Cursor(d, InString), d)
  {
    if s != "" {
      EscapeCharSpan(d, s[0]);
      EscapeSpan(d, s[1..]);
      SpansConcat(Cursor(d, InString), EscapeChar(s[0]), Cursor(d, InString), Escape(s[1..]), Cursor(d, InString), d);
    }
  }

  lemma QuoteSpan(d: int, s: string)
    ensures Spans(Cursor(d, Plain), "\"" + (Escape(s) + "\""), Cursor(d, Plain), d)
  {
    var p, q := Cursor(d, Plain), Cursor(d, InString);
    SpansOne(p, '"', d);
    SpansOne(q, '"', d);
    EscapeSpan(d, s);
    SpansConcat(q, Escape(s), q, "\"", p, d);
    SpansConcat(p, "\"", q, Escape(s) + "\"", p, d);
  }

  lemma {:induction false} DigitsQuiet(n: nat)
    ensures forall i :: 0 <= i < |Digits(n)| ==> IsDigit(Digits(n)[i])
  {
    if n >= 10 {
      DigitsQuiet(n / 10);
    }
  }

  lemma {:induction false} PrintSpan(d: int, v: Value)
    ensures Spans(Cursor(d, Plain), Print(v), Cursor(d, Plain), d)
    decreases v, 0
  {
    var p, inner := Cursor(d, Plain), Cursor(d + 1, Plain);
    match v
    case Null => QuietSpan(p, "null");
    case Bool(b) => QuietSpan(p, Print(v));
    case Number(n) =>
      DigitsQuiet(if n < 0 then -n else n);
      QuietSpan(p, Print(v));
    case Text(s) =>
      QuoteSpan(d, s);
      assert Print(v) == "\"" + (Escape(s) + "\"");
    case Array(items) =>
      var body := if items == [] then "]" else PrintItems(items);
      if items == [] { InnerNone(d, "]"); } else { ItemsSpan(d, items); }
      BracketSpan(d, '[', body);
    case Object(members) =>
      ObjectSpan(d, members);
      BracketSpan(d, '{', if members == [] then "}" else PrintMembers(members));
  }

  lemma {:induction false} ObjectSpan(d: int, members: seq<Member>)
    ensures Closes(d, if members == [] then "}" else PrintMembers(members))
    decreases members, 3
  {
    if members == [] { InnerNone(d, "}"); } else { MembersSpan(d, members); }
  }

  // From inside a bracket at depth d + 1, `s` stays inside until its last character closes it.
  ghost predicate Closes(d: int, s: string) {
    && s != ""
    && Step(Cursor(d + 1, Plain), s[|s| - 1]) == Cursor(d, Plain)
    && Spans(Cursor(d + 1, Plain), s[..|s| - 1], Cursor(d + 1, Plain), d + 1)
  }

  lemma InnerNone(d: int, s: string)
    requires s == "]" || s == "}"
    ensures Closes(d, s)
  {
    assert s[..0] == "";
  }

  lemma ClosesAfter(d: int, a: string, b: string)
    requires Spans(Cursor(d + 1, Plain), a, Cursor(d + 1, Plain), d + 1) && Closes(d, b)
    ensures Closes(d, a + b)
  {
    var p := Cursor(d + 1, Plain);
    assert (a + b)[..|a + b| - 1] == a + b[..|b| - 1];
    SpansConcat(p, a, p, b[..|b| - 1], p, d + 1);
  }

  lemma {:induction false} LowerFloor(p: Cursor, s: string, floor: int, floor': int)
    requires Above(p, s, floor) && floor' <= floor
    ensures Above(p, s, floor')
    decreases |s|
  {
    if s != "" { LowerFloor(Step(p, s[0]), s[1..], floor, floor'); }
  }

  lemma BracketSpan(d: int, open: char, body: string)
    requires (open == '[' || open == '{') && Closes(d, body)
    ensures Spans(Cursor(d, Plain), [open] + body, Cursor(d, Plain), d)
  {
    var p, inner := Cursor(d, Plain), Cursor(d + 1, Plain);
    var mid, last := body[..|body| - 1], body[|body| - 1];
    LowerFloor(inner, mid, d + 1, d);
    SpansOne(p, open, d);
    SpansOne(inner, last, d);
    SpansConcat(inner, mid, inner, [last], p, d);
    assert mid + [last] == body;
    SpansConcat(p, [open], inner, body, p, d);
  }

  lemma {:induction false} ItemsSpan(d: int, items: seq<Value>)
    requires items != []
    ensures Closes(d, PrintItems(items))
    decreases items, 1
  {
    var head := Print(items[0]);
    PrintSpan(d + 1, items[0]);
    if |items| == 1 {
      InnerNone(d, "]");
      ClosesAfter(d, head, "]");
    } else {
      ItemsSpan(d, items[1..]);
      QuietSpan(Cursor(d + 1, Plain), ",");
      ClosesAfter(d, ",", PrintItems(items[1..]));
      ClosesAfter(d, head, "," + PrintItems(items[1..]));
    }
  }

  lemma ColonSpan(d: int)
    ensures Spans(Cursor(d, Plain), ":", Cursor(d, Plain), d)
  {
    QuietSpan(Cursor(d, Plain), ":");
  }

  lemma {:induction false} MemberSpan(d: int, m: Member)
    ensures Spans(Cursor(d, Plain), PrintMember(m), Cursor(d, Plain), d)
    decreases m, 1
  {
    hide Spans, Print, Escape;
    var p := Cursor(d, Plain);
    QuoteSpan(d, m.key);
    PrintSpan(d, m.value);
    ColonSpan(d);
    SpansConcat(p, ":", p, Print(m.value), p, d);
    SpansConcat(p, "\"" + (Escape(m.key) + "\""), p, ":" + Print(m.value), p, d);
    assert PrintMember(m) == ("\"" + (Escape(m.key) + "\"")) + (":" + Print(m.value));
  }

  lemma {:induction false} MembersSpan(d: int, members: seq<Member>)
    requires members != []
    ensures Closes(d, PrintMembers(members))
    decreases members, 2
  {
    var head := PrintMember(members[0]);
    MemberSpan(d + 1, members[0]);
    if |members| == 1 {
      InnerNone(d, "}");
      ClosesAfter(d, head, "}");
    } else {
      MembersSpan(d, members[1..]);
      QuietSpan(Cursor(d + 1, Plain), ",");
      ClosesAfter(d, ",", PrintMembers(members[1..]));
      ClosesAfter(d, head, "," + PrintMembers(members[1..]));
    }
  }

  /******* No torn record loads *******/

  // A proper, nonempty prefix of a record is still inside the record's outer brace.
  lemma TornRecordIsOpen(members: seq<Member>, k: nat)
    requires 0 < k < |Print(Object(members))|
    ensures Scan(Cursor(0, Plain), Print(Object(members))[..k]).depth >= 1
  {
    var body := if members == [] then "}" else PrintMembers(members);
    var s := Print(Object(members));
    ObjectSpan(0, members);
    assert s == "{" + body;
    var mid := body[..|body| - 1];
    AboveAt(Cursor(1, Plain), mid, 1, k - 1);
    assert s[..k] == "{" + mid[..k - 1];
    assert ("{" + mid[..k - 1])[1..] == mid[..k - 1];
  }

  lemma TornRecordNeverLoads(members: seq<Member>, k: nat)
    requires 0 < k < |Print(Object(members))|
    ensures Loads(Print(Object(members))[..k]).Fail?
  {
    var s := Print(Object(members))[..k];
    assert s[0] == '{' && SkipWhitespace(s) == s;
    if ParseValue(s).Ok? {
      var rest := ParseValue(s).rest;
      ValueScan(0, s);
      var used := |s| - |rest|;
      assert s[..used] == Print(Object(members))[..used];
      TornRecordIsOpen(members, used);
    }
  }
}
