/** The JSON text that the ledger stores: compact output with sorted members and ASCII
    escapes, the reader that loads it back, and the two facts crash recovery rests on.
    A record survives being written and read, and no torn record can be read at all. */
module Json {

  datatype Value =
    | Null
    | Bool(b: bool)
    | Number(n: int)
    | Text(s: string)
    | Array(items: seq<Value>)
    | Object(members: seq<Member>)

  datatype Member = Member(key: string, value: Value)

  datatype Parsed<+T> = Fail | Ok(value: T, rest: string)

  /******* Writing *******/

  const HEX := "0123456789abcdef"

  function HexDigit(d: nat): char
    requires d < 16
  {
    HEX[d]
  }

  function Hex4(u: nat): string
    requires u < 0x1_0000
  {
    [HexDigit(u / 4096), HexDigit(u / 256 % 16), HexDigit(u / 16 % 16), HexDigit(u % 16)]
  }

  // One character of a string literal; characters outside ASCII become UTF-16 escapes.
  function EscapeChar(c: char): string {
    if c == '"' then "\\\""
    else if c == '\\' then "\\\\"
    else if c == '\n' then "\\n"
    else if c == '\r' then "\\r"
    else if c == '\t' then "\\t"
    else if ' ' <= c <= '~' then [c]
    else
      var u := c as int;
      if u < 0x1_0000 then "\\u" + Hex4(u)
      else "\\u" + Hex4(0xD800 + (u - 0x1_0000) / 1024) + "\\u" + Hex4(0xDC00 + (u - 0x1_0000) % 1024)
  }

  function Escape(s: string): string {
    if s == "" then "" else EscapeChar(s[0]) + Escape(s[1..])
  }

  function Digits(n: nat): string {
    (if n < 10 then "" else Digits(n / 10)) + [HexDigit(n % 10)]
  }

  function Print(v: Value): string {
    match v
    case Null => "null"
    case Bool(b) => if b then "true" else "false"
    case Number(n) => if n < 0 then "-" + Digits(-n) else Digits(n)
    case Text(s) => "\"" + Escape(s) + "\""
    case Array(items) => "[" + (if items == [] then "]" else PrintItems(items))
    case Object(members) => "{" + (if members == [] then "}" else PrintMembers(members))
  }

  function PrintItems(items: seq<Value>): string
    requires items != []
  {
    Print(items[0]) + if |items| == 1 then "]" else "," + PrintItems(items[1..])
  }

  function PrintMembers(members: seq<Member>): string
    requires members != []
  {
    PrintMember(members[0]) + if |members| == 1 then "}" else "," + PrintMembers(members[1..])
  }

  function PrintMember(m: Member): string {
    "\"" + (Escape(m.key) + "\"" + (":" + Print(m.value)))
  }

  /******* Reading *******/

  predicate IsWhitespace(c: char) {
    c == ' ' || c == '\t' || c == '\n' || c == '\r'
  }

  predicate IsDigit(c: char) {
    '0' <= c <= '9'
  }

  function SkipWhitespace(s: string): (rest: string)
    ensures |rest| <= |s|
    ensures rest != "" ==> !IsWhitespace(rest[0])
  {
    if s != "" && IsWhitespace(s[0]) then SkipWhitespace(s[1..]) else s
  }

  function HexValue(c: char): Parsed<nat> {
    if '0' <= c <= '9' then Ok(c as int - '0' as int, "")
    else if 'a' <= c <= 'f' then Ok(c as int - 'a' as int + 10, "")
    else if 'A' <= c <= 'F' then Ok(c as int - 'A' as int + 10, "")
    else Fail
  }

  function ParseHex4(s: string): (r: Parsed<nat>)
    ensures r.Ok? ==> r.value < 0x1_0000 && |s| >= 4 && r.rest == s[4..]
  {
    if |s| < 4 then Fail
    else
      var a, b, c, d := HexValue(s[0]), HexValue(s[1]), HexValue(s[2]), HexValue(s[3]);
      if a.Fail? || b.Fail? || c.Fail? || d.Fail? then Fail
      else if a.value >= 16 || b.value >= 16 || c.value >= 16 || d.value >= 16 then Fail
      else Ok(a.value * 4096 + b.value * 256 + c.value * 16 + d.value, s[4..])
  }

  // What follows a backslash. A surrogate escape must be the first half of a pair.
  function ParseEscape(s: string): (r: Parsed<char>)
    ensures r.Ok? ==> |r.rest| < |s|
  {
    if s == "" then Fail
    else if s[0] == '"' || s[0] == '\\' || s[0] == '/' then Ok(s[0], s[1..])
    else if s[0] == 'b' then Ok(8 as char, s[1..])
    else if s[0] == 'f' then Ok(12 as char, s[1..])
    else if s[0] == 'n' then Ok('\n', s[1..])
    else if s[0] == 'r' then Ok('\r', s[1..])
    else if s[0] == 't' then Ok('\t', s[1..])
    else if s[0] != 'u' then Fail
    else
      match ParseHex4(s[1..])
      case Fail => Fail
      case Ok(u, rest) =>
        if u < 0xD800 || 0xE000 <= u then Ok(u as char, rest)
        else if u < 0xDC00 && |rest| >= 2 && rest[0] == '\\' && rest[1] == 'u' then
          match ParseHex4(rest[2..])
          case Fail => Fail
          case Ok(w, rest') =>
            if 0xDC00 <= w < 0xE000 then
              Ok((0x1_0000 + (u - 0xD800) * 1024 + (w - 0xDC00)) as char, rest')
            else Fail
        else Fail
  }

  // The characters of a string literal up to and including its closing quote.
  function ParseChars(s: string): (r: Parsed<string>)
    ensures r.Ok? ==> |r.rest| < |s|
    decreases |s|
  {
    if s == "" || s[0] < ' ' then Fail
    else if s[0] == '"' then Ok("", s[1..])
    else
      var first := if s[0] == '\\' then ParseEscape(s[1..]) else Ok(s[0], s[1..]);
      if first.Fail? then Fail
      else
        match ParseChars(first.rest)
        case Fail => Fail
        case Ok(cs, rest) => Ok([first.value] + cs, rest)
  }

  function ParseDigits(s: string, acc: nat): (r: (nat, string))
    ensures |r.1| <= |s|
  {
    if s != "" && IsDigit(s[0]) then ParseDigits(s[1..], acc * 10 + (s[0] as int - '0' as int)) else (acc, s)
  }

  function ParseNumber(s: string): (r: Parsed<Value>)
    ensures r.Ok? ==> |r.rest| < |s|
  {
    var negative := s != "" && s[0] == '-';
    var t := if negative then s[1..] else s;
    if t == "" || !IsDigit(t[0]) then Fail
    else if t[0] == '0' then Ok(Number(0), t[1..])
    else
      var (n, rest) := ParseDigits(t[1..], t[0] as int - '0' as int);
      if negative then Ok(Number(-(n as int)), rest) else Ok(Number(n), rest)
  }

  function ParseLiteral(s: string, literal: string, v: Value): (r: Parsed<Value>)
    requires literal != ""
    ensures r.Ok? ==> |r.rest| < |s|
  {
    if literal <= s then Ok(v, s[|literal|..]) else Fail
  }

  function ParseValue(s: string): (r: Parsed<Value>)
    ensures r.Ok? ==> |r.rest| < |s|
    decreases |s|, 0
  {
    if s == "" then Fail
    else if s[0] == '"' then
      match ParseChars(s[1..])
      case Fail => Fail
      case Ok(cs, rest) => Ok(Text(cs), rest)
    else if s[0] == '[' then
      var t := SkipWhitespace(s[1..]);
      if t != "" && t[0] == ']' then Ok(Array([]), t[1..])
      else
        match ParseItems(t)
        case Fail => Fail
        case Ok(items, rest) => Ok(Array(items), rest)
    else if s[0] == '{' then
      var t := SkipWhitespace(s[1..]);
      if t != "" && t[0] == '}' then Ok(Object([]), t[1..])
      else
        match ParseMembers(t)
        case Fail => Fail
        case Ok(members, rest) => Ok(Object(members), rest)
    else if s[0] == 'n' then ParseLiteral(s, "null", Null)
    else if s[0] == 't' then ParseLiteral(s, "true", Bool(true))
    else if s[0] == 'f' then ParseLiteral(s, "false", Bool(false))
    else ParseNumber(s)
  }

  // One or more array items, up to and including the closing bracket.
  function ParseItems(s: string): (r: Parsed<seq<Value>>)
    ensures r.Ok? ==> |r.rest| < |s|
    decreases |s|, 1
  {
    match ParseValue(s)
    case Fail => Fail
    case Ok(v, rest) =>
      var t := SkipWhitespace(rest);
      if t == "" then Fail
      else if t[0] == ']' then Ok([v], t[1..])
      else if t[0] != ',' then Fail
      else
        match ParseItems(SkipWhitespace(t[1..]))
        case Fail => Fail
        case Ok(vs, rest') => Ok([v] + vs, rest')
  }

  // `"key" : value` with optional whitespace.
  function ParseMember(s: string): (r: Parsed<Member>)
    ensures r.Ok? ==> |r.rest| < |s|
    decreases |s|, 1
  {
    if s == "" || s[0] != '"' then Fail
    else
      match ParseChars(s[1..])
      case Fail => Fail
      case Ok(key, rest) =>
        var t := SkipWhitespace(rest);
        if t == "" || t[0] != ':' then Fail
        else
          match ParseValue(SkipWhitespace(t[1..]))
          case Fail => Fail
          case Ok(v, rest') => Ok(Member(key, v), rest')
  }

  // One or more object members, up to and including the closing brace.
  function ParseMembers(s: string): (r: Parsed<seq<Member>>)
    ensures r.Ok? ==> |r.rest| < |s|
    decreases |s|, 2
  {
    match ParseMember(s)
    case Fail => Fail
    case Ok(m, rest) =>
      var t := SkipWhitespace(rest);
      if t == "" then Fail
      else if t[0] == '}' then Ok([m], t[1..])
      else if t[0] != ',' then Fail
      else
        match ParseMembers(SkipWhitespace(t[1..]))
        case Fail => Fail
        case Ok(ms, rest') => Ok([m] + ms, rest')
  }

  // The whole text must be one value; surrounding whitespace is allowed.
  function Loads(s: string): Parsed<Value> {
    match ParseValue(SkipWhitespace(s))
    case Fail => Fail
    case Ok(v, rest) => if SkipWhitespace(rest) == "" then Ok(v, "") else Fail
  }
}
