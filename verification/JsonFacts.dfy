/** Reading what was written gives the value back, and a cut record never loads. */
module JsonFacts {
  import opened Json

  /******* Round trip *******/

  lemma HexRoundTrip(d: nat)
    requires d < 16
    ensures HexValue(HexDigit(d)) == Ok(d, "")
  {
  }

  lemma Hex4RoundTrip(u: nat, rest: string)
    requires u < 0x1_0000
    ensures ParseHex4(Hex4(u) + rest) == Ok(u, rest)
  {
    hide ParseHex4, HexDigit;
    FourDigits(u / 4096, u / 256 % 16, u / 16 % 16, u % 16, rest);
    Hex4Sum(u);
  }

  lemma FourDigits(a: nat, b: nat, c: nat, d: nat, rest: string)
    requires a < 16 && b < 16 && c < 16 && d < 16
    ensures ParseHex4([HexDigit(a), HexDigit(b), HexDigit(c), HexDigit(d)] + rest)
         == Ok(a * 4096 + b * 256 + c * 16 + d, rest)
  {
    hide HexDigit, HexValue;
    HexRoundTrip(a);
    HexRoundTrip(b);
    HexRoundTrip(c);
    HexRoundTrip(d);
    assert ([HexDigit(a), HexDigit(b), HexDigit(c), HexDigit(d)] + rest)[4..] == rest;
  }

  lemma Hex4Sum(u: nat)
    ensures u / 4096 * 4096 + u / 256 % 16 * 256 + u / 16 % 16 * 16 + u % 16 == u
  {
    var a, b, c := u / 16, u / 256, u / 4096;
    assert b == a / 16 && c == b / 16;
  }

  // A character above ASCII comes back from its one or two UTF-16 escapes.
  lemma UnicodeEscapeRoundTrip(c: char, rest: string)
    requires c as int > 126
    ensures EscapeChar(c) != "" && EscapeChar(c)[0] == '\\'
    ensures ParseEscape(EscapeChar(c)[1..] + rest) == Ok(c, rest)
  {
    hide Hex4, ParseHex4, ParseEscape;
    if c as int < 0x1_0000 {
      OneEscape(c, rest);
    } else {
      TwoEscapes(c, rest);
    }
  }

  lemma OneEscape(c: char, rest: string)
    requires 126 < c as int < 0x1_0000
    ensures EscapeChar(c) != "" && ParseEscape(EscapeChar(c)[1..] + rest) == Ok(c, rest)
  {
    hide Hex4, ParseHex4, ParseEscape;
    var u := c as int;
    var s := EscapeChar(c)[1..] + rest;
    assert EscapeChar(c) == "\\u" + Hex4(u);
    assert s[1..] == Hex4(u) + rest;
    Hex4RoundTrip(u, rest);
    SingleEscape(s, u, rest);
  }

  lemma TwoEscapes(c: char, rest: string)
    requires c as int >= 0x1_0000
    ensures EscapeChar(c) != "" && ParseEscape(EscapeChar(c)[1..] + rest) == Ok(c, rest)
  {
    hide Hex4, ParseHex4, ParseEscape, EscapeChar;
    var u := c as int;
    var hi, lo := 0xD800 + (u - 0x1_0000) / 1024, 0xDC00 + (u - 0x1_0000) % 1024;
    var tail := "\\u" + (Hex4(lo) + rest);
    Hex4RoundTrip(hi, tail);
    Hex4RoundTrip(lo, rest);
    SurrogateText(c, rest, hi, lo, tail);
    PairedEscape(EscapeChar(c)[1..] + rest, hi, tail, lo, rest);
  }

  lemma SurrogateText(c: char, rest: string, hi: nat, lo: nat, tail: string)
    requires c as int >= 0x1_0000
    requires hi == 0xD800 + (c as int - 0x1_0000) / 1024 && lo == 0xDC00 + (c as int - 0x1_0000) % 1024
    requires tail == "\\u" + (Hex4(lo) + rest)
    ensures |EscapeChar(c)| >= 2 && EscapeChar(c)[0] == '\\' && EscapeChar(c)[1] == 'u'
    ensures (EscapeChar(c)[1..] + rest)[1..] == Hex4(hi) + tail && tail[2..] == Hex4(lo) + rest
  {
    hide Hex4;
    assert EscapeChar(c) == "\\u" + Hex4(hi) + "\\u" + Hex4(lo);
  }

  lemma SingleEscape(s: string, u: nat, rest: string)
    requires s != "" && s[0] == 'u' && ParseHex4(s[1..]) == Ok(u, rest)
    requires u < 0xD800 || 0xE000 <= u
    ensures u < 0x1_0000 && ParseEscape(s) == Ok(u as char, rest)
  {
  }

  lemma PairedEscape(s: string, hi: nat, tail: string, lo: nat, rest: string)
    requires s != "" && s[0] == 'u' && ParseHex4(s[1..]) == Ok(hi, tail) && 0xD800 <= hi < 0xDC00
    requires |tail| >= 2 && tail[0] == '\\' && tail[1] == 'u'
    requires ParseHex4(tail[2..]) == Ok(lo, rest) && 0xDC00 <= lo < 0xE000
    ensures ParseEscape(s) == Ok((0x1_0000 + (hi - 0xD800) * 1024 + (lo - 0xDC00)) as char, rest)
  {
  }

  lemma EscapeCharRoundTrip(c: char, rest: string)
    ensures ParseChars(EscapeChar(c) + rest)
         == match ParseChars(rest) case Fail => Fail case Ok(cs, r) => Ok([c] + cs, r)
  {
    hide ParseChars, ParseEscape, EscapeChar;
    var e := EscapeChar(c);
    var t := e + rest;
    if ' ' <= c <= '~' || c == '\n' || c == '\r' || c == '\t' {
      ShortEscape(c, rest);
    } else if c as int > 126 {
      UnicodeEscapeRoundTrip(c, rest);
    } else {
      ControlEscapeRoundTrip(c, rest);
    }
    NoEmptyEscape(c);
    assert t[0] == e[0] && t[1..] == e[1..] + rest;
    if e[0] == '\\' {
      ReadsEscape(t, c, rest);
    } else {
      ReadsPlain(c, rest);
      assert t == [c] + rest;
    }
  }

  lemma NoEmptyEscape(c: char)
    ensures EscapeChar(c) != ""
  {
    hide Hex4;
  }

  lemma ShortEscape(c: char, rest: string)
    requires ' ' <= c <= '~' || c == '\n' || c == '\r' || c == '\t'
    ensures var e := EscapeChar(c);
            if e[0] == '\\' then ParseEscape(e[1..] + rest) == Ok(c, rest) else e == [c] && c != '"' && c >= ' '
  {
    hide ParseHex4;
    var e := EscapeChar(c);
    assert |e| == 2 ==> (e[1..] + rest)[1..] == rest;
  }

  lemma ReadsEscape(t: string, c: char, rest: string)
    requires t != "" && t[0] == '\\' && ParseEscape(t[1..]) == Ok(c, rest)
    ensures ParseChars(t) == match ParseChars(rest) case Fail => Fail case Ok(cs, r) => Ok([c] + cs, r)
  {
    hide ParseEscape;
  }

  lemma ReadsPlain(c: char, rest: string)
    requires c >= ' ' && c != '"' && c != '\\'
    ensures ParseChars([c] + rest) == match ParseChars(rest) case Fail => Fail case Ok(cs, r) => Ok([c] + cs, r)
  {
    hide ParseEscape;
    assert ([c] + rest)[1..] == rest;
  }

  lemma ControlEscapeRoundTrip(c: char, rest: string)
    requires c < ' ' && c != '\n' && c != '\r' && c != '\t'
    ensures EscapeChar(c)[0] == '\\'
    ensures ParseEscape(EscapeChar(c)[1..] + rest) == Ok(c, rest)
  {
    hide Hex4, ParseHex4, ParseEscape;
    var u := c as int;
    assert EscapeChar(c) == "\\u" + Hex4(u);
    var s := EscapeChar(c)[1..] + rest;
    assert s[1..] == Hex4(u) + rest;
    Hex4RoundTrip(u, rest);
    SingleEscape(s, u, rest);
  }

  lemma {:induction false} EscapeRoundTrip(s: string, rest: string)
    ensures ParseChars(Escape(s) + "\"" + rest) == Ok(s, rest)
  {
    hide EscapeChar, ParseEscape;
    if s == "" {
      assert ("" + "\"" + rest)[1..] == rest;
    } else {
      EscapeRoundTrip(s[1..], rest);
      EscapeCharRoundTrip(s[0], Escape(s[1..]) + "\"" + rest);
      assert Escape(s) + "\"" + rest == EscapeChar(s[0]) + (Escape(s[1..]) + "\"" + rest);
      assert [s[0]] + s[1..] == s;
    }
  }

  predicate NumberEnds(rest: string) {
    rest == "" || !IsDigit(rest[0])
  }

  lemma {:induction false} DigitsRoundTrip(n: nat, rest: string)
    ensures Digits(n) != "" && IsDigit(Digits(n)[0]) && (Digits(n)[0] == '0' <==> n == 0)
    ensures ParseDigits(Digits(n)[1..] + rest, Digits(n)[0] as int - '0' as int) == ParseDigits(rest, n)
    ensures n == 0 ==> Digits(n) == "0"
  {
    hide Digits, ParseDigits;
    var d := HexDigit(n % 10);
    LastDigit(n);
    if n < 10 {
      assert [d][1..] + rest == rest;
    } else {
      DigitsRoundTrip(n / 10, [d] + rest);
      assert Digits(n)[1..] + rest == Digits(n / 10)[1..] + ([d] + rest);
      NextDigit(n, rest);
    }
  }

  lemma LastDigit(n: nat)
    ensures Digits(n) == (if n < 10 then "" else Digits(n / 10)) + [HexDigit(n % 10)]
  {
  }

  lemma NextDigit(n: nat, rest: string)
    ensures ParseDigits([HexDigit(n % 10)] + rest, n / 10) == ParseDigits(rest, n)
  {
    assert ([HexDigit(n % 10)] + rest)[1..] == rest;
  }

  lemma DigitsParse(m: nat, rest: string)
    requires NumberEnds(rest)
    ensures Digits(m) != "" && IsDigit(Digits(m)[0])
    ensures ParseNumber(Digits(m) + rest) == Ok(Number(m), rest)
    ensures m > 0 ==> ParseNumber("-" + (Digits(m) + rest)) == Ok(Number(-(m as int)), rest)
  {
    hide Digits, ParseDigits, ParseNumber;
    var t := Digits(m) + rest;
    DigitsRoundTrip(m, rest);
    assert t[0] == Digits(m)[0] && t[1..] == Digits(m)[1..] + rest;
    DigitsStop(rest, m);
    assert m == 0 ==> t[1..] == rest;
    ReadsDigits(t);
    assert ("-" + t)[1..] == t;
  }

  lemma DigitsStop(rest: string, m: nat)
    requires NumberEnds(rest)
    ensures ParseDigits(rest, m) == (m, rest)
  {
  }

  lemma ReadsDigits(t: string)
    requires t != "" && IsDigit(t[0])
    ensures var (n, rest) := if t[0] == '0' then (0, t[1..]) else ParseDigits(t[1..], t[0] as int - '0' as int);
            ParseNumber(t) == Ok(Number(n), rest) && ParseNumber("-" + t) == Ok(Number(-(n as int)), rest)
  {
    hide ParseDigits;
    assert ("-" + t)[1..] == t;
  }

  lemma NumberRoundTrip(n: int, rest: string)
    requires NumberEnds(rest)
    ensures ParseValue(Print(Number(n)) + rest) == Ok(Number(n), rest)
  {
    hide Digits, ParseValue, ParseNumber;
    var m: nat := if n < 0 then -n else n;
    var t := Digits(m) + rest;
    DigitsParse(m, rest);
    ReadsNumber(if n < 0 then "-" + t else t);
    assert n < 0 ==> ("-" + Digits(m)) + rest == "-" + t;
  }

  // A digit or a sign leaves only the number branch of the reader.
  lemma ReadsNumber(s: string)
    requires s != "" && (s[0] == '-' || IsDigit(s[0]))
    ensures ParseValue(s) == ParseNumber(s)
  {
  }

  lemma LiteralRoundTrip(literal: string, v: Value, rest: string)
    requires literal != ""
    ensures ParseLiteral(literal + rest, literal, v) == Ok(v, rest)
  {
    assert (literal + rest)[|literal|..] == rest;
  }

  lemma ReadsText(t: string)
    ensures ParseValue("\"" + t) == match ParseChars(t) case Fail => Fail case Ok(cs, rest) => Ok(Text(cs), rest)
  {
    hide ParseChars, ParseItems, ParseMembers, ParseNumber, SkipWhitespace;
    assert ("\"" + t)[1..] == t;
  }

  lemma TextRoundTrip(s: string, rest: string)
    ensures ParseValue(Print(Text(s)) + rest) == Ok(Text(s), rest)
  {
    hide ParseChars, ParseValue, Escape;
    var t := Escape(s) + "\"" + rest;
    EscapeRoundTrip(s, rest);
    ReadsText(t);
    assert Print(Text(s)) + rest == "\"" + t;
  }

  lemma {:induction false} RoundTrip(v: Value, rest: string)
    requires NumberEnds(rest)
    ensures ParseValue(Print(v) + rest) == Ok(v, rest)
    decreases v, 0
  {
    match v
    case Null => LiteralRoundTrip("null", v, rest);
    case Bool(b) => LiteralRoundTrip(if b then "true" else "false", v, rest);
    case Number(n) => NumberRoundTrip(n, rest);
    case Text(s) => TextRoundTrip(s, rest);
    case Array(items) =>
      if items != [] { ItemsRoundTrip(items, rest); }
      ArrayRead(items, rest);
    case Object(members) =>
      if members != [] { MembersRoundTrip(members, rest); }
      ObjectRead(members, rest);
  }

  lemma ArrayRead(items: seq<Value>, rest: string)
    requires items != [] ==> var t := PrintItems(items) + rest;
      SkipWhitespace(t) == t && t[0] != ']' && ParseItems(t) == Ok(items, rest)
    ensures ParseValue(Print(Array(items)) + rest) == Ok(Array(items), rest)
  {
    var body := (if items == [] then "]" else PrintItems(items)) + rest;
    assert Print(Array(items)) + rest == "[" + body;
    assert items == [] ==> body[1..] == rest;
    ReadsArray(body);
  }

  lemma ReadsArray(t: string)
    requires t != "" && !IsWhitespace(t[0])
    ensures ParseValue("[" + t) ==
            if t[0] == ']' then Ok(Array([]), t[1..])
            else match ParseItems(t) case Fail => Fail case Ok(items, rest) => Ok(Array(items), rest)
  {
    assert ("[" + t)[1..] == t;
  }

  lemma ObjectRead(members: seq<Member>, rest: string)
    requires members != [] ==> var t := PrintMembers(members) + rest;
      t[0] == '"' && ParseMembers(t) == Ok(members, rest)
    ensures ParseValue(Print(Object(members)) + rest) == Ok(Object(members), rest)
  {
    var body := (if members == [] then "}" else PrintMembers(members)) + rest;
    assert Print(Object(members)) + rest == "{" + body;
    assert members == [] ==> body[1..] == rest;
    ReadsObject(body);
  }

  lemma ReadsObject(t: string)
    requires t != "" && !IsWhitespace(t[0])
    ensures ParseValue("{" + t) ==
            if t[0] == '}' then Ok(Object([]), t[1..])
            else match ParseMembers(t) case Fail => Fail case Ok(members, rest) => Ok(Object(members), rest)
  {
    assert ("{" + t)[1..] == t;
  }

  // No value starts with whitespace or a closing bracket, so the reader takes the same branch.
  lemma PrintHead(v: Value)
    ensures Print(v) != "" && !IsWhitespace(Print(v)[0]) && Print(v)[0] != ']'
  {
    if v.Number? {
      DigitsRoundTrip(if v.n < 0 then -v.n else v.n, "");
    }
  }

  lemma {:induction false} ItemsRoundTrip(items: seq<Value>, rest: string)
    requires items != []
    ensures var t := PrintItems(items) + rest;
            SkipWhitespace(t) == t && t[0] != ']' && ParseItems(t) == Ok(items, rest)
    decreases items, 1
  {
    hide Print, ParseValue;
    PrintHead(items[0]);
    if |items| == 1 {
      var t := "]" + rest;
      RoundTrip(items[0], t);
      assert PrintItems(items) + rest == Print(items[0]) + t;
      assert t[1..] == rest;
      assert items == [items[0]];
    } else {
      var t := "," + (PrintItems(items[1..]) + rest);
      RoundTrip(items[0], t);
      assert PrintItems(items) + rest == Print(items[0]) + t;
      assert t[1..] == PrintItems(items[1..]) + rest;
      ItemsRoundTrip(items[1..], rest);
      assert [items[0]] + items[1..] == items;
    }
  }

  lemma {:induction false} MemberRoundTrip(m: Member, rest: string)
    requires NumberEnds(rest)
    ensures ParseMember(PrintMember(m) + rest) == Ok(m, rest)
    decreases m, 1
  {
    hide Escape, Print, ParseChars, ParseValue;
    var s := PrintMember(m) + rest;
    var t := ":" + (Print(m.value) + rest);
    assert s[0] == '"' && s[1..] == Escape(m.key) + "\"" + t;
    EscapeRoundTrip(m.key, t);
    assert t[1..] == Print(m.value) + rest;
    PrintHead(m.value);
    RoundTrip(m.value, rest);
  }

  lemma {:induction false} MembersRoundTrip(members: seq<Member>, rest: string)
    requires members != []
    ensures var t := PrintMembers(members) + rest;
            t[0] == '"' && ParseMembers(t) == Ok(members, rest)
    decreases members, 2
  {
    hide Escape, Print, ParseMember, ParseMembers;
    var m := members[0];
    if |members| == 1 {
      var t := "}" + rest;
      MemberRoundTrip(m, t);
      assert PrintMembers(members) + rest == PrintMember(m) + t;
      assert t[1..] == rest && members == [m];
      LastMember(PrintMember(m) + t, m, t);
    } else {
      var t := "," + (PrintMembers(members[1..]) + rest);
      MemberRoundTrip(m, t);
      assert PrintMembers(members) + rest == PrintMember(m) + t;
      assert t[1..] == PrintMembers(members[1..]) + rest;
      MembersRoundTrip(members[1..], rest);
      assert [m] + members[1..] == members;
      NextMember(PrintMember(m) + t, m, t);
    }
  }

  lemma LastMember(s: string, m: Member, t: string)
    requires ParseMember(s) == Ok(m, t) && t != "" && t[0] == '}'
    ensures ParseMembers(s) == Ok([m], t[1..])
  {
  }

  lemma NextMember(s: string, m: Member, t: string)
    requires ParseMember(s) == Ok(m, t) && |t| > 1 && t[0] == ',' && !IsWhitespace(t[1])
    requires ParseMembers(t[1..]).Ok?
    ensures ParseMembers(s) == Ok([m] + ParseMembers(t[1..]).value, ParseMembers(t[1..]).rest)
  {
    assert SkipWhitespace(t[1..]) == t[1..];
  }

  lemma LoadsPrint(v: Value)
    ensures Loads(Print(v)) == Ok(v, "")
  {
    RoundTrip(v, "");
    PrintHead(v);
    assert Print(v) + "" == Print(v);
  }

  // Two values with the same text are the same value, so comparing records compares events.
  lemma PrintInjective(v: Value, w: Value)
    requires Print(v) == Print(w)
    ensures v == w
  {
    LoadsPrint(v);
    LoadsPrint(w);
  }

  /******* A record is one line *******/

  predicate Printable(s: string) {
    forall i :: 0 <= i < |s| ==> ' ' <= s[i] <= '~'
  }

  lemma Hex4IsPrintable(u: nat)
    requires u < 0x1_0000
    ensures Printable(Hex4(u))
  {
    HexRoundTrip(u / 4096);
    HexRoundTrip(u / 256 % 16);
    HexRoundTrip(u / 16 % 16);
    HexRoundTrip(u % 16);
  }

  lemma EscapeCharIsPrintable(c: char)
    ensures Printable(EscapeChar(c))
  {
    hide Hex4;
    var u := c as int;
    if u < 0x1_0000 {
      Hex4IsPrintable(u);
    } else {
      Hex4IsPrintable(0xD800 + (u - 0x1_0000) / 1024);
      Hex4IsPrintable(0xDC00 + (u - 0x1_0000) % 1024);
    }
  }

  lemma {:induction false} EscapeIsPrintable(s: string)
    ensures Printable(Escape(s))
  {
    if s != "" {
      EscapeCharIsPrintable(s[0]);
      EscapeIsPrintable(s[1..]);
    }
  }

  lemma {:induction false} DigitsArePrintable(n: nat)
    ensures Printable(Digits(n))
  {
    if n >= 10 {
      DigitsArePrintable(n / 10);
    }
  }

  lemma BothPrintable(a: string, b: string)
    requires Printable(a) && Printable(b)
    ensures Printable(a + b)
  {
  }

  lemma {:induction false} PrintIsPrintable(v: Value)
    ensures Printable(Print(v))
    decreases v, 0
  {
    hide Escape, Digits;
    match v
    case Null =>
    case Bool(b) =>
    case Number(n) => DigitsArePrintable(if n < 0 then -n else n);
    case Text(s) => EscapeIsPrintable(s);
    case Array(items) => if items != [] { ItemsArePrintable(items); }
    case Object(members) => if members != [] { MembersArePrintable(members); }
  }

  lemma {:induction false} ItemsArePrintable(items: seq<Value>)
    requires items != []
    ensures Printable(PrintItems(items))
    decreases items, 1
  {
    hide Print;
    PrintIsPrintable(items[0]);
    if |items| > 1 {
      ItemsArePrintable(items[1..]);
    }
  }

  lemma {:induction false} MembersArePrintable(members: seq<Member>)
    requires members != []
    ensures Printable(PrintMembers(members))
    decreases members, 2
  {
    hide PrintMember, Printable;
    var tail := if |members| == 1 then "}" else "," + PrintMembers(members[1..]);
    assert Printable("}") && Printable(",") by {
      PunctuationIsPrintable();
    }
    if |members| > 1 {
      MembersArePrintable(members[1..]);
      BothPrintable(",", PrintMembers(members[1..]));
    }
    MemberIsPrintable(members[0]);
    BothPrintable(PrintMember(members[0]), tail);
  }

  lemma PunctuationIsPrintable()
    ensures Printable("}") && Printable(",")
  {
  }

  lemma {:induction false} MemberIsPrintable(m: Member)
    ensures Printable(PrintMember(m))
    decreases m, 1
  {
    hide Escape, Print;
    EscapeIsPrintable(m.key);
    PrintIsPrintable(m.value);
  }

  lemma {:induction false} MembersEndInBrace(members: seq<Member>)
    requires members != []
    ensures PrintMembers(members) != "" && PrintMembers(members)[|PrintMembers(members)| - 1] == '}'
  {
    if |members| > 1 {
      MembersEndInBrace(members[1..]);
    }
  }

  // A record has no newline and starts and ends with its braces.
  lemma RecordShape(members: seq<Member>)
    ensures var s := Print(Object(members));
            Printable(s) && |s| >= 2 && s[0] == '{' && s[|s| - 1] == '}'
  {
    PrintIsPrintable(Object(members));
    if members != [] {
      MembersEndInBrace(members);
    }
  }
}
