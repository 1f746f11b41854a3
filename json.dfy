/** JSON values as the client stores them in `localStorage` and as the server
    sends them: `Stringify` plays `JSON.stringify`, `Parse` plays `JSON.parse`
    (the grammar of RFC 8259), and `Parse(Stringify(v)) == Some(v)` is proved.
    Numbers keep their literal text; object members keep their text order and
    a lookup takes the last member with the key, as `JSON.parse` does. Also
    here: JavaScript truthiness, property access and string conversion of the
    values the client handles. */
module Json {
  import opened Wrappers
  import opened Text

  datatype Json =
    | JNull
    | JBool(b: bool)
    | JNum(literal: string)
    | JStr(s: string)
    | JArr(items: seq<Json>)
    | JObj(members: seq<Member>)

  datatype Member = Member(key: string, value: Json)

  // ---------------------------------------------------------------------
  // Number literals: -? (0 | [1-9][0-9]*) (. [0-9]+)? ([eE] [+-]? [0-9]+)?
  // recognised by a deterministic automaton that stops at the first
  // character it cannot take.
  // ---------------------------------------------------------------------

  datatype NumState = Start | Minus | Zero | Int | Dot | Frac | Exp | ExpSign | ExpDigits

  function Step(st: NumState, c: char): Option<NumState> {
    match st
    case Start => if c == '-' then Some(Minus) else if c == '0' then Some(Zero)
                  else if IsDigit(c) then Some(Int) else None
    case Minus => if c == '0' then Some(Zero) else if IsDigit(c) then Some(Int) else None
    case Zero => if c == '.' then Some(Dot) else if c == 'e' || c == 'E' then Some(Exp) else None
    case Int => if IsDigit(c) then Some(Int) else if c == '.' then Some(Dot)
                else if c == 'e' || c == 'E' then Some(Exp) else None
    case Dot => if IsDigit(c) then Some(Frac) else None
    case Frac => if IsDigit(c) then Some(Frac) else if c == 'e' || c == 'E' then Some(Exp) else None
    case Exp => if c == '+' || c == '-' then Some(ExpSign) else if IsDigit(c) then Some(ExpDigits) else None
    case ExpSign => if IsDigit(c) then Some(ExpDigits) else None
    case ExpDigits => if IsDigit(c) then Some(ExpDigits) else None
  }

  predicate Accepting(st: NumState) {
    st == Zero || st == Int || st == Frac || st == ExpDigits
  }

  /** The end of the number literal that starts at `i` in state `st`, or None
      when the longest run the automaton takes does not end in a complete literal. */
  function ScanNumber(s: string, i: nat, st: NumState): (r: Option<nat>)
    requires i <= |s|
    ensures r.Some? ==> i <= r.value <= |s| && (r.value > i || Accepting(st))
    decreases |s| - i
  {
    if i < |s| && Step(st, s[i]).Some? then ScanNumber(s, i + 1, Step(st, s[i]).value)
    else if Accepting(st) then Some(i)
    else None
  }

  predicate IsNumberLiteral(t: string) {
    ScanNumber(t, 0, Start) == Some(|t|)
  }

  /** The characters that may follow a value inside an array or object. */
  predicate Closer(c: char) {
    c == ',' || c == ']' || c == '}'
  }

  /** A literal is read the same whatever follows it, as long as that starts
      with a closer. */
  lemma {:induction false} ScanStable(t: string, rest: string, i: nat, st: NumState)
    requires i <= |t|
    requires ScanNumber(t, i, st) == Some(|t|)
    requires rest == [] || Closer(rest[0])
    ensures ScanNumber(t + rest, i, st) == Some(|t|)
    decreases |t| - i
  {
    var s := t + rest;
    if i < |t| {
      assert s[i] == t[i];
      if Step(st, t[i]).Some? {
        ScanStable(t, rest, i + 1, Step(st, t[i]).value);
      }
    } else if rest != [] {
      assert s[i] == rest[0];
      assert Step(st, s[i]).None?;
    }
  }

  // ---------------------------------------------------------------------
  // Strings
  // ---------------------------------------------------------------------

  /** A lower-case hexadecimal digit, as `JSON.stringify` writes them; it
      reads back as its value. */
  function HexDigit(d: nat): (c: char)
    requires d < 16
    ensures HexValue(c) == Some(d)
  {
    if d < 10 then (d + '0' as int) as char else (d - 10 + 'a' as int) as char
  }

  function HexValue(c: char): Option<nat> {
    if '0' <= c <= '9' then Some(c as int - '0' as int)
    else if 'a' <= c <= 'f' then Some(c as int - 'a' as int + 10)
    else if 'A' <= c <= 'F' then Some(c as int - 'A' as int + 10)
    else None
  }

  /** The code unit written by four hex digits at the start of `s`. */
  function Hex4(s: string): (r: Option<nat>)
    ensures r.Some? ==> r.value < 0x10000
  {
    if |s| < 4 then None
    else match (HexValue(s[0]), HexValue(s[1]), HexValue(s[2]), HexValue(s[3]))
      case (Some(a), Some(b), Some(c), Some(d)) =>
        if a < 16 && b < 16 && c < 16 && d < 16 then Some(((a * 16 + b) * 16 + c) * 16 + d) else None
      case _ => None
  }

  /** How `JSON.stringify` writes one character of a string. */
  function EscapeChar(c: char): string {
    if c == '"' then "\\\""
    else if c == '\\' then "\\\\"
    else if c as int == 8 then "\\b"
    else if c as int == 12 then "\\f"
    else if c == '\n' then "\\n"
    else if c == '\r' then "\\r"
    else if c == '\t' then "\\t"
    else if c as int < 0x20 then "\\u00" + [HexDigit(c as int / 16), HexDigit(c as int % 16)]
    else [c]
  }

  function Escape(s: string): string {
    if |s| == 0 then "" else EscapeChar(s[0]) + Escape(s[1..])
  }

  function Quote(s: string): string {
    "\"" + Escape(s) + "\""
  }

  /** The character an escape sequence stands for; `s` is what follows the
      backslash. A surrogate pair written as two `\u` escapes is one character;
      a lone surrogate is refused (a Dafny string cannot hold it). */
  function ParseEscape(s: string): (r: Option<(char, string)>)
    ensures r.Some? ==> |r.value.1| < |s|
  {
    if |s| == 0 then None
    else if s[0] == '"' then Some(('"', s[1..]))
    else if s[0] == '\\' then Some(('\\', s[1..]))
    else if s[0] == '/' then Some(('/', s[1..]))
    else if s[0] == 'b' then Some((8 as char, s[1..]))
    else if s[0] == 'f' then Some((12 as char, s[1..]))
    else if s[0] == 'n' then Some(('\n', s[1..]))
    else if s[0] == 'r' then Some(('\r', s[1..]))
    else if s[0] == 't' then Some(('\t', s[1..]))
    else if s[0] == 'u' then
      match Hex4(s[1..])
      case None => None
      case Some(n) =>
        if 0xD800 <= n < 0xDC00 then
          if |s| >= 7 && s[5] == '\\' && s[6] == 'u' then
            match Hex4(s[7..])
            case Some(m) =>
              if 0xDC00 <= m < 0xE000 then
                Some(((0x10000 + (n - 0xD800) * 0x400 + (m - 0xDC00)) as char, s[11..]))
              else None
            case None => None
          else None
        else if 0xDC00 <= n < 0xE000 then None
        else Some((n as char, s[5..]))
    else None
  }

  /** The characters of a string literal up to its closing quote, and what
      follows the quote; `s` is what follows the opening quote. */
  function ParseStringBody(s: string): (r: Option<(string, string)>)
    ensures r.Some? ==> |r.value.1| < |s|
  {
    if |s| == 0 then None
    else if s[0] == '"' then Some(("", s[1..]))
    else if s[0] == '\\' then
      match ParseEscape(s[1..])
      case None => None
      case Some((c, r)) =>
        match ParseStringBody(r)
        case None => None
        case Some((body, r2)) => Some(([c] + body, r2))
    else if (s[0] as int) < 0x20 then None
    else
      match ParseStringBody(s[1..])
      case None => None
      case Some((body, r2)) => Some(([s[0]] + body, r2))
  }

  lemma EscapeCharRead(c: char, rest: string)
    ensures ParseStringBody(EscapeChar(c) + rest) ==
      match ParseStringBody(rest)
      case None => None
      case Some((body, r2)) => Some(([c] + body, r2))
  {
    var e := EscapeChar(c);
    var s := e + rest;
    if c == '"' || c == '\\' || c as int == 8 || c as int == 12 || c == '\n' || c == '\r' || c == '\t' {
      assert s[1..][1..] == rest;
    } else if c as int < 0x20 {
      ControlRead(c, rest);
    } else {
      assert s[1..] == rest;
    }
  }

  /** A control character written as `\u00XY` reads back as itself. */
  lemma ControlRead(c: char, rest: string)
    requires c as int < 0x20
    requires !(c == '"' || c == '\\' || c as int == 8 || c as int == 12 || c == '\n' || c == '\r' || c == '\t')
    ensures ParseStringBody(EscapeChar(c) + rest) ==
      match ParseStringBody(rest)
      case None => None
      case Some((body, r2)) => Some(([c] + body, r2))
  {
    var s := EscapeChar(c) + rest;
    var n := c as int;
    var hex := s[1..][1..];
    assert hex == "00" + [HexDigit(n / 16), HexDigit(n % 16)] + rest;
    assert hex[2] == HexDigit(n / 16) && hex[3] == HexDigit(n % 16);
    assert Hex4(hex) == Some(n);
    assert s[1..][5..] == rest;
  }

  lemma {:induction false} StringRoundTrip(str: string, rest: string)
    ensures ParseStringBody(Escape(str) + "\"" + rest) == Some((str, rest))
  {
    if |str| == 0 {
      assert Escape(str) + "\"" + rest == "\"" + rest;
      assert ("\"" + rest)[1..] == rest;
    } else {
      var tail := Escape(str[1..]) + "\"" + rest;
      assert Escape(str) + "\"" + rest == EscapeChar(str[0]) + tail;
      EscapeCharRead(str[0], tail);
      StringRoundTrip(str[1..], rest);
      assert [str[0]] + str[1..] == str;
    }
  }

  // ---------------------------------------------------------------------
  // Values
  // ---------------------------------------------------------------------

  /** The whitespace `JSON.parse` skips between tokens. */
  predicate JsonSpace(c: char) {
    c == ' ' || c == '\t' || c == '\n' || c == '\r'
  }

  function SkipWs(s: string): (r: string)
    ensures |r| <= |s| && r == s[|s| - |r|..]
    ensures r == [] || !JsonSpace(r[0])
  {
    if |s| > 0 && JsonSpace(s[0]) then SkipWs(s[1..]) else s
  }

  function Stringify(v: Json): string {
    match v
    case JNull => "null"
    case JBool(b) => if b then "true" else "false"
    case JNum(t) => t
    case JStr(s) => Quote(s)
    case JArr(items) => "[" + StringifyElements(items) + "]"
    case JObj(ms) => "{" + StringifyMembers(ms) + "}"
  }

  function StringifyElements(items: seq<Json>): string {
    if |items| == 0 then ""
    else if |items| == 1 then Stringify(items[0])
    else Stringify(items[0]) + "," + StringifyElements(items[1..])
  }

  function StringifyMember(m: Member): string {
    Quote(m.key) + ":" + Stringify(m.value)
  }

  function StringifyMembers(ms: seq<Member>): string {
    if |ms| == 0 then ""
    else if |ms| == 1 then StringifyMember(ms[0])
    else StringifyMember(ms[0]) + "," + StringifyMembers(ms[1..])
  }

  function ParseValue(s: string): (r: Option<(Json, string)>)
    ensures r.Some? ==> |r.value.1| < |s|
    decreases |s|, 0
  {
    var t := SkipWs(s);
    if |t| == 0 then None
    else if t[0] == '[' then ParseArray(t[1..])
    else if t[0] == '{' then ParseObject(t[1..])
    else ParseScalar(t)
  }

  /** `null`, `true`, `false`, a string or a number at the start of `t`. */
  function ParseScalar(t: string): (r: Option<(Json, string)>)
    ensures r.Some? ==> |r.value.1| < |t|
  {
    if |t| == 0 then None
    else if t[0] == 'n' then ParseWord(t, "null", JNull)
    else if t[0] == 't' then ParseWord(t, "true", JBool(true))
    else if t[0] == 'f' then ParseWord(t, "false", JBool(false))
    else if t[0] == '"' then ParseStringValue(t[1..])
    else if t[0] == '-' || IsDigit(t[0]) then ParseNumber(t)
    else None
  }

  function ParseWord(t: string, word: string, v: Json): (r: Option<(Json, string)>)
    requires |word| > 0
    ensures r.Some? ==> |r.value.1| < |t|
  {
    if StartsWith(t, word) then Some((v, t[|word|..])) else None
  }

  /** A string value after its opening quote. */
  function ParseStringValue(s: string): (r: Option<(Json, string)>)
    ensures r.Some? ==> |r.value.1| < |s|
  {
    match ParseStringBody(s)
    case None => None
    case Some((str, r)) => Some((JStr(str), r))
  }

  function ParseNumber(t: string): (r: Option<(Json, string)>)
    ensures r.Some? ==> |r.value.1| < |t|
  {
    match ScanNumber(t, 0, Start)
    case None => None
    case Some(k) => Some((JNum(t[..k]), t[k..]))
  }

  /** An array after its `[`. */
  function ParseArray(s: string): (r: Option<(Json, string)>)
    ensures r.Some? ==> |r.value.1| < |s|
    decreases |s|, 2
  {
    var u := SkipWs(s);
    if |u| > 0 && u[0] == ']' then Some((JArr([]), u[1..]))
    else
      match ParseElements(u)
      case None => None
      case Some((items, r)) => Some((JArr(items), r))
  }

  /** `value (, value)* ]` */
  function ParseElements(s: string): (r: Option<(seq<Json>, string)>)
    ensures r.Some? ==> |r.value.1| < |s|
    decreases |s|, 1
  {
    match ParseValue(s)
    case None => None
    case Some((v, r)) =>
      var u := SkipWs(r);
      if |u| > 0 && u[0] == ',' then
        match ParseElements(u[1..])
        case None => None
        case Some((vs, r2)) => Some(([v] + vs, r2))
      else if |u| > 0 && u[0] == ']' then Some(([v], u[1..]))
      else None
  }

  /** An object after its `{`. */
  function ParseObject(s: string): (r: Option<(Json, string)>)
    ensures r.Some? ==> |r.value.1| < |s|
    decreases |s|, 2
  {
    var u := SkipWs(s);
    if |u| > 0 && u[0] == '}' then Some((JObj([]), u[1..]))
    else
      match ParseMembers(u)
      case None => None
      case Some((ms, r)) => Some((JObj(ms), r))
  }

  /** `"key" : value (, "key" : value)* }` */
  function ParseMembers(s: string): (r: Option<(seq<Member>, string)>)
    ensures r.Some? ==> |r.value.1| < |s|
    decreases |s|, 1
  {
    var t := SkipWs(s);
    if |t| == 0 || t[0] != '"' then None
    else
      match ParseStringBody(t[1..])
      case None => None
      case Some((k, r)) =>
        var u := SkipWs(r);
        if |u| == 0 || u[0] != ':' then None
        else
          match ParseValue(u[1..])
          case None => None
          case Some((v, r2)) =>
            var w := SkipWs(r2);
            if |w| > 0 && w[0] == ',' then
              match ParseMembers(w[1..])
              case None => None
              case Some((ms, r3)) => Some(([Member(k, v)] + ms, r3))
            else if |w| > 0 && w[0] == '}' then Some(([Member(k, v)], w[1..]))
            else None
  }

  /** `JSON.parse`: one value, optionally surrounded by whitespace, and nothing else. */
  function Parse(s: string): Option<Json> {
    match ParseValue(s)
    case None => None
    case Some((v, r)) => if SkipWs(r) == [] then Some(v) else None
  }

  /** The values `JSON.stringify` can produce: every number is a complete literal. */
  predicate Valid(v: Json) {
    match v
    case JNum(t) => IsNumberLiteral(t)
    case JArr(items) => ValidItems(items)
    case JObj(ms) => ValidMembers(ms)
    case _ => true
  }

  predicate ValidItems(items: seq<Json>) {
    |items| == 0 || (Valid(items[0]) && ValidItems(items[1..]))
  }

  predicate ValidMembers(ms: seq<Member>) {
    |ms| == 0 || (Valid(ms[0].value) && ValidMembers(ms[1..]))
  }

  lemma SkipWsNone(s: string)
    requires s != [] && !JsonSpace(s[0])
    ensures SkipWs(s) == s
  {
  }

  lemma {:induction false} RoundTripValue(v: Json, rest: string)
    requires Valid(v)
    requires rest == [] || Closer(rest[0])
    ensures ParseValue(Stringify(v) + rest) == Some((v, rest))
    decreases v, 1
  {
    if v.JArr? {
      ArrayValue(v, rest);
    } else if v.JObj? {
      ObjectValue(v, rest);
    } else {
      ScalarRoundTrip(v, rest);
      SkipWsNone(Stringify(v) + rest);
    }
  }

  lemma ArrayValue(v: Json, rest: string)
    requires v.JArr? && Valid(v)
    ensures ParseValue(Stringify(v) + rest) == Some((v, rest))
    decreases v, 0
  {
    var body := StringifyElements(v.items) + "]" + rest;
    var s := "[" + body;
    assert Stringify(v) + rest == s;
    SkipWsNone(s);
    assert s[1..] == body;
    ArrayRoundTrip(v.items, rest);
  }

  lemma ObjectValue(v: Json, rest: string)
    requires v.JObj? && Valid(v)
    ensures ParseValue(Stringify(v) + rest) == Some((v, rest))
    decreases v, 0
  {
    var body := StringifyMembers(v.members) + "}" + rest;
    var s := "{" + body;
    assert Stringify(v) + rest == s;
    SkipWsNone(s);
    assert s[1..] == body;
    ObjectRoundTrip(v.members, rest);
  }

  lemma ScalarRoundTrip(v: Json, rest: string)
    requires Valid(v) && !v.JArr? && !v.JObj?
    requires rest == [] || Closer(rest[0])
    ensures var s := Stringify(v) + rest;
      s != [] && !JsonSpace(s[0]) && s[0] != '[' && s[0] != '{'
      && ParseScalar(s) == Some((v, rest))
  {
    var s := Stringify(v) + rest;
    match v
    case JNull =>
      assert s[..4] == "null" && s[4..] == rest;
    case JBool(b) =>
      if b { assert s[..4] == "true" && s[4..] == rest; }
      else { assert s[..5] == "false" && s[5..] == rest; }
    case JNum(t) =>
      NumberRoundTrip(t, rest);
    case JStr(str) =>
      assert s == "\"" + (Escape(str) + "\"" + rest);
      StringRoundTrip(str, rest);
  }

  lemma NumberRoundTrip(t: string, rest: string)
    requires IsNumberLiteral(t)
    requires rest == [] || Closer(rest[0])
    ensures var s := t + rest;
      s != [] && (s[0] == '-' || IsDigit(s[0]))
      && ParseNumber(s) == Some((JNum(t), rest))
  {
    var s := t + rest;
    assert t != [] && (t[0] == '-' || IsDigit(t[0])) by {
      assert ScanNumber(t, 0, Start) == ScanNumber(t, 1, Step(Start, t[0]).value);
    }
    assert s[0] == t[0];
    ScanStable(t, rest, 0, Start);
    assert s[..|t|] == t && s[|t|..] == rest;
  }

  lemma ArrayRoundTrip(items: seq<Json>, rest: string)
    requires ValidItems(items)
    ensures ParseArray(StringifyElements(items) + "]" + rest) == Some((JArr(items), rest))
    decreases items, 3
  {
    var s := StringifyElements(items) + "]" + rest;
    if |items| == 0 {
      assert s == "]" + rest;
      SkipWsNone(s);
      assert s[1..] == rest;
    } else {
      RoundTripElements(items, rest);
      ElementsStart(items, rest);
      SkipWsNone(s);
    }
  }

  lemma ElementsStart(items: seq<Json>, rest: string)
    requires |items| > 0
    requires ValidItems(items)
    ensures var s := StringifyElements(items) + "]" + rest;
      s != [] && !JsonSpace(s[0]) && s[0] != ']'
  {
    var first := Stringify(items[0]);
    FirstChar(items[0]);
    var e := StringifyElements(items);
    assert e[0] == first[0] by {
      if |items| > 1 {
        assert e == first + ("," + StringifyElements(items[1..]));
      }
    }
  }

  lemma FirstChar(v: Json)
    requires Valid(v)
    ensures var s := Stringify(v);
      s != [] && !JsonSpace(s[0]) && s[0] != ']' && s[0] != '}' && s[0] != ',' && s[0] != 'u'
  {
    match v
    case JNum(t) =>
      assert t != [] && (t[0] == '-' || IsDigit(t[0])) by {
        assert ScanNumber(t, 0, Start) == ScanNumber(t, 1, Step(Start, t[0]).value);
      }
    case JStr(str) =>
      assert Stringify(v) == "\"" + (Escape(str) + "\"");
    case JArr(items) =>
      assert Stringify(v) == "[" + (StringifyElements(items) + "]");
    case JObj(ms) =>
      assert Stringify(v) == "{" + (StringifyMembers(ms) + "}");
    case _ =>
  }

  lemma ObjectRoundTrip(ms: seq<Member>, rest: string)
    requires ValidMembers(ms)
    ensures ParseObject(StringifyMembers(ms) + "}" + rest) == Some((JObj(ms), rest))
    decreases ms, 3
  {
    var s := StringifyMembers(ms) + "}" + rest;
    if |ms| == 0 {
      assert s == "}" + rest;
      SkipWsNone(s);
      assert s[1..] == rest;
    } else {
      RoundTripMembers(ms, rest);
      MembersSplit(ms, rest);
      MemberText(ms[0], MembersAfter(ms, rest));
      SkipWsNone(s);
    }
  }

  /** What follows the first member in the text of `ms` and its closing brace. */
  function MembersAfter(ms: seq<Member>, rest: string): string
    requires |ms| > 0
  {
    if |ms| == 1 then "}" + rest else "," + (StringifyMembers(ms[1..]) + "}" + rest)
  }

  lemma MembersSplit(ms: seq<Member>, rest: string)
    requires |ms| > 0
    ensures StringifyMembers(ms) + "}" + rest == StringifyMember(ms[0]) + MembersAfter(ms, rest)
  {
    var a := StringifyMember(ms[0]);
    if |ms| == 1 {
      assert StringifyMembers(ms) == a;
      Assoc3(a, "}", rest);
    } else {
      var b := StringifyMembers(ms[1..]);
      assert StringifyMembers(ms) == a + "," + b;
      Assoc5(a, ",", b, "}", rest);
    }
  }

  lemma Assoc3(a: string, b: string, c: string)
    ensures a + b + c == a + (b + c)
  {
  }

  lemma Assoc5(a: string, b: string, c: string, d: string, e: string)
    ensures a + b + c + d + e == a + (b + (c + d + e))
  {
  }

  lemma ParseLastElement(s: string, v: Json, r: string)
    requires ParseValue(s) == Some((v, r))
    requires r != [] && r[0] == ']'
    ensures ParseElements(s) == Some(([v], r[1..]))
  {
    SkipWsNone(r);
  }

  lemma ParseNextElement(s: string, v: Json, r: string)
    requires ParseValue(s) == Some((v, r))
    requires r != [] && r[0] == ','
    requires ParseElements(r[1..]).Some?
    ensures ParseElements(s) == Some(([v] + ParseElements(r[1..]).value.0, ParseElements(r[1..]).value.1))
  {
    SkipWsNone(r);
  }

  lemma {:induction false} RoundTripElements(items: seq<Json>, rest: string)
    requires |items| > 0
    requires ValidItems(items)
    ensures ParseElements(StringifyElements(items) + "]" + rest) == Some((items, rest))
    decreases items, 2
  {
    if |items| == 1 {
      LastElement(items, rest);
    } else {
      RoundTripElements(items[1..], rest);
      NextElement(items, rest);
      assert [items[0]] + items[1..] == items;
    }
  }

  lemma LastElement(items: seq<Json>, rest: string)
    requires |items| == 1
    requires Valid(items[0])
    ensures ParseElements(StringifyElements(items) + "]" + rest) == Some((items, rest))
    decreases items, 1
  {
    var s := StringifyElements(items) + "]" + rest;
    var after := "]" + rest;
    assert s == Stringify(items[0]) + after;
    RoundTripValue(items[0], after);
    ParseLastElement(s, items[0], after);
    assert after[1..] == rest;
    assert [items[0]] == items;
  }

  /** The first element of a list of several, then the rest. */
  lemma NextElement(items: seq<Json>, rest: string)
    requires |items| > 1
    requires Valid(items[0])
    ensures var t := ParseElements(StringifyElements(items[1..]) + "]" + rest);
      t.Some? ==> ParseElements(StringifyElements(items) + "]" + rest) == Some(([items[0]] + t.value.0, t.value.1))
    decreases items, 1
  {
    var s := StringifyElements(items) + "]" + rest;
    var tailText := StringifyElements(items[1..]) + "]" + rest;
    var after := "," + tailText;
    assert s == Stringify(items[0]) + after;
    RoundTripValue(items[0], after);
    assert after[1..] == tailText;
    if ParseElements(tailText).Some? {
      ParseNextElement(s, items[0], after);
    }
  }

  /** One `"key": value` member followed by `}`. */
  lemma ParseLastMember(s: string, k: string, r: string, v: Json, r2: string)
    requires s != [] && s[0] == '"'
    requires ParseStringBody(s[1..]) == Some((k, r))
    requires r != [] && r[0] == ':'
    requires ParseValue(r[1..]) == Some((v, r2))
    requires r2 != [] && r2[0] == '}'
    ensures ParseMembers(s) == Some(([Member(k, v)], r2[1..]))
  {
    SkipWsNone(s);
    SkipWsNone(r);
    SkipWsNone(r2);
  }

  /** One `"key": value` member followed by `,` and more members. */
  lemma ParseNextMember(s: string, k: string, r: string, v: Json, r2: string)
    requires s != [] && s[0] == '"'
    requires ParseStringBody(s[1..]) == Some((k, r))
    requires r != [] && r[0] == ':'
    requires ParseValue(r[1..]) == Some((v, r2))
    requires r2 != [] && r2[0] == ','
    requires ParseMembers(r2[1..]).Some?
    ensures ParseMembers(s) == Some(([Member(k, v)] + ParseMembers(r2[1..]).value.0, ParseMembers(r2[1..]).value.1))
  {
    SkipWsNone(s);
    SkipWsNone(r);
    SkipWsNone(r2);
  }

  lemma MemberText(m: Member, after: string)
    ensures StringifyMember(m) + after ==
      "\"" + (Escape(m.key) + "\"" + (":" + (Stringify(m.value) + after)))
  {
  }

  lemma {:induction false} RoundTripMembers(ms: seq<Member>, rest: string)
    requires |ms| > 0
    requires ValidMembers(ms)
    ensures ParseMembers(StringifyMembers(ms) + "}" + rest) == Some((ms, rest))
    decreases ms, 2
  {
    if |ms| == 1 {
      LastMember(ms, rest);
      assert [ms[0]] == ms;
    } else {
      RoundTripMembers(ms[1..], rest);
      NextMember(ms, rest);
      HeadTail(ms);
    }
  }

  lemma LastMember(ms: seq<Member>, rest: string)
    requires |ms| == 1
    requires Valid(ms[0].value)
    ensures ParseMembers(StringifyMembers(ms) + "}" + rest) == Some(([ms[0]], rest))
    decreases ms, 1
  {
    FirstMember(ms, rest);
    DropFirst('}', rest);
  }

  /** The first member of a list of several, then the rest. */
  lemma NextMember(ms: seq<Member>, rest: string)
    requires |ms| > 1
    requires Valid(ms[0].value)
    ensures var t := ParseMembers(StringifyMembers(ms[1..]) + "}" + rest);
      t.Some? ==> ParseMembers(StringifyMembers(ms) + "}" + rest) == Some(([ms[0]] + t.value.0, t.value.1))
    decreases ms, 1
  {
    FirstMember(ms, rest);
    DropFirst(',', StringifyMembers(ms[1..]) + "}" + rest);
  }

  /** Reading the first member of `ms` as far as the `,` or `}` after it. */
  lemma FirstMember(ms: seq<Member>, rest: string)
    requires |ms| > 0
    requires Valid(ms[0].value)
    ensures var s := StringifyMembers(ms) + "}" + rest;
      var after := MembersAfter(ms, rest);
      after != [] && (after[0] == ',' || after[0] == '}')
      && (after[0] == '}' ==> ParseMembers(s) == Some(([ms[0]], after[1..])))
      && (after[0] == ',' && ParseMembers(after[1..]).Some? ==>
            ParseMembers(s) == Some(([ms[0]] + ParseMembers(after[1..]).value.0, ParseMembers(after[1..]).value.1)))
    decreases ms, 0
  {
    var m := ms[0];
    var s := StringifyMembers(ms) + "}" + rest;
    var after := MembersAfter(ms, rest);
    var valueText := Stringify(m.value) + after;
    var colon := ":" + valueText;
    var body := Escape(m.key) + "\"" + colon;
    MembersSplit(ms, rest);
    MemberText(m, after);
    assert s == "\"" + body;
    DropFirst('"', body);
    StringRoundTrip(m.key, colon);
    DropFirst(':', valueText);
    RoundTripValue(m.value, after);
    if after[0] == '}' {
      ParseLastMember(s, m.key, colon, m.value, after);
    } else if ParseMembers(after[1..]).Some? {
      ParseNextMember(s, m.key, colon, m.value, after);
    }
  }

  lemma HeadTail<T>(s: seq<T>)
    requires |s| > 0
    ensures [s[0]] + s[1..] == s
  {
  }

  lemma DropFirst(c: char, x: string)
    ensures ([c] + x)[1..] == x
  {
  }

  /** What `JSON.stringify` writes, `JSON.parse` reads back as the same value. */
  lemma RoundTrip(v: Json)
    requires Valid(v)
    ensures Parse(Stringify(v)) == Some(v)
  {
    RoundTripValue(v, []);
    assert Stringify(v) + [] == Stringify(v);
  }

  /** `JSON.stringify` never writes the empty string or the text `undefined`. */
  lemma StringifyShape(v: Json)
    requires Valid(v)
    ensures Stringify(v) != "" && Stringify(v) != "undefined"
  {
    FirstChar(v);
  }

  // ---------------------------------------------------------------------
  // JavaScript's view of a parsed value. `None` stands for `undefined`.
  // ---------------------------------------------------------------------

  /** The member value `JSON.parse` keeps for `key`: the last one written. */
  function Lookup(ms: seq<Member>, key: string): Option<Json>
  {
    if |ms| == 0 then None
    else if ms[|ms| - 1].key == key then Some(ms[|ms| - 1].value)
    else Lookup(ms[..|ms| - 1], key)
  }

  /** A lookup finds nothing exactly when no member has the key, and
      otherwise finds the value of a member with that key after which no
      member has it. */
  lemma {:induction false} LookupSpec(ms: seq<Member>, key: string)
    ensures var r := Lookup(ms, key);
      (r.None? <==> forall i | 0 <= i < |ms| :: ms[i].key != key)
      && (r.Some? ==> exists i | 0 <= i < |ms| ::
            (ms[i] == Member(key, r.value) && forall j | i < j < |ms| :: ms[j].key != key))
    decreases |ms|
  {
    if |ms| > 0 && ms[|ms| - 1].key != key {
      var init := ms[..|ms| - 1];
      LookupSpec(init, key);
      assert forall i | 0 <= i < |init| :: init[i] == ms[i];
    }
  }

  /** The member written last under a key is the one a lookup finds. */
  lemma {:induction false} LookupLast(ms: seq<Member>, i: nat)
    requires i < |ms|
    requires forall j | i < j < |ms| :: ms[j].key != ms[i].key
    ensures Lookup(ms, ms[i].key) == Some(ms[i].value)
    decreases |ms|
  {
    if i < |ms| - 1 {
      var init := ms[..|ms| - 1];
      assert init[i] == ms[i];
      LookupLast(init, i);
    }
  }

  /** Property access `v.key`: undefined on anything but an object. (On
      `null` JavaScript throws; the callers check for that themselves.) */
  function Get(v: Json, key: string): (r: Option<Json>)
    ensures r.Some? ==> v.JObj?
  {
    if v.JObj? then Lookup(v.members, key) else None
  }

  /** Optional chaining `o?.key`. */
  function GetOpt(o: Option<Json>, key: string): (r: Option<Json>)
    ensures o.Some? && !o.value.JNull? ==> r == Get(o.value, key)
    ensures o.None? || o.value.JNull? ==> r.None?
  {
    match o
    case None => None
    case Some(v) => if v.JNull? then None else Get(v, key)
  }

  /** Whether a number literal denotes zero: every digit before the exponent is 0. */
  function IsZeroLiteral(t: string): (r: bool)
    ensures t != [] && t[0] == '-' ==> r == IsZeroLiteral(t[1..])
  {
    if |t| == 0 then true
    else if t[0] == 'e' || t[0] == 'E' then true
    else if t[0] == '-' || t[0] == '.' || t[0] == '0' then IsZeroLiteral(t[1..])
    else false
  }

  /** JavaScript truthiness: `undefined`, `null`, `false`, `0`, `-0` and `""`
      are falsy; every array and object is truthy. */
  predicate Truthy(o: Option<Json>) {
    match o
    case None => false
    case Some(JNull) => false
    case Some(JBool(b)) => b
    case Some(JNum(t)) => !IsZeroLiteral(t)
    case Some(JStr(s)) => s != []
    case Some(JArr(_)) => true
    case Some(JObj(_)) => true
  }

  /** `a || b` on values. */
  function Or(a: Option<Json>, b: Option<Json>): (r: Option<Json>)
    ensures Truthy(a) ==> r == a
    ensures !Truthy(a) ==> r == b
  {
    if Truthy(a) then a else b
  }

  /** `String(v)`, as a template literal `${v}` converts a value. */
  function JsToString(o: Option<Json>): (r: string)
    ensures o.None? ==> r == "undefined"
    ensures o == Some(JNull) ==> r == "null"
    ensures o.Some? && o.value.JStr? ==> r == o.value.s
    ensures o.Some? && o.value.JObj? ==> r == "[object Object]"
  {
    match o
    case None => "undefined"
    case Some(v) => ValueToString(v)
  }

  function ValueToString(v: Json): string
    decreases v, 1
  {
    match v
    case JNull => "null"
    case JBool(b) => if b then "true" else "false"
    case JNum(t) => t
    case JStr(s) => s
    case JArr(items) => JoinElements(items)
    case JObj(_) => "[object Object]"
  }

  /** `Array.prototype.join(",")`: null elements become empty. */
  function JoinElements(items: seq<Json>): string
    decreases items, 0
  {
    if |items| == 0 then ""
    else
      var first := if items[0].JNull? then "" else ValueToString(items[0]);
      if |items| == 1 then first else first + "," + JoinElements(items[1..])
  }
}
