/** JSON values as the relay exchanges them: `JSON.stringify` on the server
    and `JSON.parse` in the browser. Numbers are not part of this model (the
    relay never sends one); everything else of RFC 8259 is: null, booleans,
    strings with their escapes, arrays and objects (members kept in order,
    duplicates included, the last one winning on lookup). */
module Json {
  import opened Text

  datatype Json =
    | JNull
    | JBool(b: bool)
    | JStr(s: string)
    | JArr(items: seq<Json>)
    | JObj(members: seq<Member>)

  datatype Member = Member(key: string, value: Json)

  // ---------------------------------------------------------------------------
  // JavaScript's view of a parsed value
  // ---------------------------------------------------------------------------

  /** `v[key]` on a parsed value: `None` stands for `undefined`. Only objects
      have properties; with duplicate keys the last one wins. */
  function Get(v: Json, key: string): Option<Json>
  {
    if v.JObj? then Lookup(v.members, key) else None
  }

  function Lookup(ms: seq<Member>, key: string): Option<Json>
  {
    if ms == [] then None
    else if ms[|ms| - 1].key == key then Some(ms[|ms| - 1].value)
    else Lookup(ms[..|ms| - 1], key)
  }

  /** A lookup finds the value of the last member with the key, and fails
      exactly when no member has it. */
  lemma {:induction false} LookupLast(ms: seq<Member>, key: string)
    ensures Lookup(ms, key).Some? ==> exists i :: 0 <= i < |ms| && ms[i] == Member(key, Lookup(ms, key).value)
                                                && forall j :: i < j < |ms| ==> ms[j].key != key
    ensures Lookup(ms, key).None? ==> forall i :: 0 <= i < |ms| ==> ms[i].key != key
  {
    if ms != [] && ms[|ms| - 1].key != key {
      var init := ms[..|ms| - 1];
      LookupLast(init, key);
      assert forall i :: 0 <= i < |init| ==> init[i] == ms[i];
    }
  }

  /** JavaScript truthiness of a property value (`undefined` is `None`). */
  predicate Truthy(o: Option<Json>) {
    match o
    case None => false
    case Some(JNull) => false
    case Some(JBool(b)) => b
    case Some(JStr(s)) => s != ""
    case Some(JArr(_)) => true
    case Some(JObj(_)) => true
  }

  /** `String(v)`: what `content += v` appends for a parsed value. */
  function JsToString(v: Json): string
  {
    match v
    case JNull => "null"
    case JBool(b) => if b then "true" else "false"
    case JStr(s) => s
    case JArr(items) => JsJoinItems(items)
    case JObj(_) => "[object Object]"
  }

  /** `Array.prototype.join(',')`, where a null element contributes nothing. */
  function JsJoinItems(items: seq<Json>): string
  {
    if items == [] then ""
    else
      (if items[0].JNull? then "" else JsToString(items[0]))
      + (if |items| == 1 then "" else "," + JsJoinItems(items[1..]))
  }

  // ---------------------------------------------------------------------------
  // JSON.stringify
  // ---------------------------------------------------------------------------

  const HexDigits := "0123456789abcdef"

  /** The escape `JSON.stringify` writes for one character of a string
      (QuoteJSONString, section 25.5.2.3 of ECMA-262). */
  function EscapeChar(c: char): string
  {
    if c == '"' then "\\\""
    else if c == '\\' then "\\\\"
    else if c == '\U{0008}' then "\\b"
    else if c == '\t' then "\\t"
    else if c == '\n' then "\\n"
    else if c == '\U{000C}' then "\\f"
    else if c == '\r' then "\\r"
    else if c < ' ' then "\\u00" + [HexDigits[c as int / 16], HexDigits[c as int % 16]]
    else [c]
  }

  function Escape(s: string): string
  {
    if s == [] then "" else EscapeChar(s[0]) + Escape(s[1..])
  }

  function Quote(s: string): string
  {
    "\"" + Escape(s) + "\""
  }

  /** The characters serialized JSON can start and end with. */
  predicate StartChar(c: char) {
    c == 't' || c == 'f' || c == 'n' || c == '"' || c == '[' || c == '{'
  }

  predicate EndChar(c: char) {
    c == 'e' || c == 'l' || c == '"' || c == ']' || c == '}'
  }

  /** `JSON.stringify(v)` without indentation. */
  function Stringify(v: Json): (r: string)
    ensures r != [] && StartChar(r[0]) && EndChar(r[|r| - 1])
  {
    match v
    case JNull => "null"
    case JBool(b) => if b then "true" else "false"
    case JStr(s) => Quote(s)
    case JArr(items) => "[" + StringifyItems(items) + "]"
    case JObj(ms) => "{" + StringifyMembers(ms) + "}"
  }

  function StringifyItems(items: seq<Json>): string
  {
    if items == [] then ""
    else Stringify(items[0]) + (if |items| == 1 then "" else "," + StringifyItems(items[1..]))
  }

  function StringifyMember(m: Member): string
  {
    Quote(m.key) + ":" + Stringify(m.value)
  }

  function StringifyMembers(ms: seq<Member>): string
  {
    if ms == [] then ""
    else StringifyMember(ms[0]) + (if |ms| == 1 then "" else "," + StringifyMembers(ms[1..]))
  }

  // ---------------------------------------------------------------------------
  // JSON.parse
  // ---------------------------------------------------------------------------

  /** JSON's insignificant whitespace (section 2 of RFC 8259). */
  predicate IsJsonWs(c: char) {
    c == ' ' || c == '\t' || c == '\n' || c == '\r'
  }

  function SkipWs(s: string): (r: string)
    ensures |r| <= |s|
    ensures r == [] || !IsJsonWs(r[0])
  {
    if s != [] && IsJsonWs(s[0]) then SkipWs(s[1..]) else s
  }

  function HexValue(c: char): Option<nat>
  {
    if '0' <= c <= '9' then Some(c as int - '0' as int)
    else if 'a' <= c <= 'f' then Some(c as int - 'a' as int + 10)
    else if 'A' <= c <= 'F' then Some(c as int - 'A' as int + 10)
    else None
  }

  /** The character named by the four hex digits of a `\u` escape; a
      surrogate half has no character of its own and is refused. */
  function HexChar(h: string): Option<char>
    requires |h| == 4
  {
    match (HexValue(h[0]), HexValue(h[1]), HexValue(h[2]), HexValue(h[3]))
    case (Some(a), Some(b), Some(c), Some(d)) =>
      var n := ((a * 16 + b) * 16 + c) * 16 + d;
      if n < 0xD800 || (0xE000 <= n < 0x1_0000) then Some(n as char) else None
    case _ => None
  }

  /** The character a two-character escape `\x` stands for. */
  function ShortEscape(c: char): Option<char>
  {
    if c == '"' then Some('"')
    else if c == '\\' then Some('\\')
    else if c == '/' then Some('/')
    else if c == 'b' then Some('\U{0008}')
    else if c == 'f' then Some('\U{000C}')
    else if c == 'n' then Some('\n')
    else if c == 'r' then Some('\r')
    else if c == 't' then Some('\t')
    else None
  }

  function PrependChar(c: char, r: Option<(string, string)>): Option<(string, string)>
  {
    match r
    case None => None
    case Some((str, rest)) => Some(([c] + str, rest))
  }

  /** The body of a string literal after its opening quote: the decoded
      characters and what follows the closing quote. A raw control character
      is refused, as `JSON.parse` refuses it. */
  function ParseString(s: string): (r: Option<(string, string)>)
    ensures r.Some? ==> |r.value.1| < |s|
  {
    if s == [] then None
    else if s[0] == '"' then Some(("", s[1..]))
    else if s[0] == '\\' then
      if |s| < 2 then None
      else if s[1] == 'u' then
        if |s| < 6 then None
        else match HexChar(s[2..6])
          case None => None
          case Some(c) => PrependChar(c, ParseString(s[6..]))
      else match ShortEscape(s[1])
        case None => None
        case Some(c) => PrependChar(c, ParseString(s[2..]))
    else if s[0] < ' ' then None
    else PrependChar(s[0], ParseString(s[1..]))
  }

  /** One value after optional whitespace, and the text after it. */
  function ParseValue(s: string): (r: Option<(Json, string)>)
    ensures r.Some? ==> |r.value.1| < |s|
    decreases |s|, 1
  {
    var t := SkipWs(s);
    if t == [] then None
    else if StartsWith(t, "null") then Some((JNull, t[4..]))
    else if StartsWith(t, "true") then Some((JBool(true), t[4..]))
    else if StartsWith(t, "false") then Some((JBool(false), t[5..]))
    else if t[0] == '"' then
      match ParseString(t[1..])
      case None => None
      case Some((str, rest)) => Some((JStr(str), rest))
    else if t[0] == '[' then ParseArray(t[1..])
    else if t[0] == '{' then ParseObject(t[1..])
    else None
  }

  /** An array after its opening bracket. */
  function ParseArray(s: string): (r: Option<(Json, string)>)
    ensures r.Some? ==> |r.value.1| < |s|
    decreases |s|, 3
  {
    var t := SkipWs(s);
    if t != [] && t[0] == ']' then Some((JArr([]), t[1..]))
    else
      match ParseElements(s)
      case None => None
      case Some((items, rest)) => Some((JArr(items), rest))
  }

  /** One or more comma-separated values and the closing bracket. */
  function ParseElements(s: string): (r: Option<(seq<Json>, string)>)
    ensures r.Some? ==> |r.value.1| < |s|
    decreases |s|, 2
  {
    match ParseValue(s)
    case None => None
    case Some((v, rest)) =>
      var t := SkipWs(rest);
      if t != [] && t[0] == ']' then Some(([v], t[1..]))
      else if t != [] && t[0] == ',' then
        match ParseElements(t[1..])
        case None => None
        case Some((vs, rest')) => Some(([v] + vs, rest'))
      else None
  }

  /** An object after its opening brace. */
  function ParseObject(s: string): (r: Option<(Json, string)>)
    ensures r.Some? ==> |r.value.1| < |s|
    decreases |s|, 3
  {
    var t := SkipWs(s);
    if t != [] && t[0] == '}' then Some((JObj([]), t[1..]))
    else
      match ParseMembers(s)
      case None => None
      case Some((ms, rest)) => Some((JObj(ms), rest))
  }

  /** One or more comma-separated `"key": value` members and the closing brace. */
  function ParseMembers(s: string): (r: Option<(seq<Member>, string)>)
    ensures r.Some? ==> |r.value.1| < |s|
    decreases |s|, 2
  {
    var t := SkipWs(s);
    if t == [] || t[0] != '"' then None
    else match ParseString(t[1..])
      case None => None
      case Some((key, afterKey)) =>
        var c := SkipWs(afterKey);
        if c == [] || c[0] != ':' then None
        else match ParseValue(c[1..])
          case None => None
          case Some((v, rest)) =>
            var u := SkipWs(rest);
            if u != [] && u[0] == '}' then Some(([Member(key, v)], u[1..]))
            else if u != [] && u[0] == ',' then
              match ParseMembers(u[1..])
              case None => None
              case Some((ms, rest')) => Some(([Member(key, v)] + ms, rest'))
            else None
  }

  /** `JSON.parse(text)`; `None` is the SyntaxError it throws. */
  function Parse(text: string): Option<Json>
  {
    match ParseValue(text)
    case None => None
    case Some((v, rest)) => if SkipWs(rest) == [] then Some(v) else None
  }

  // ---------------------------------------------------------------------------
  // Properties of the serializer
  // ---------------------------------------------------------------------------

  /** No character below U+0020 (so no newline) ever appears in serialized text. */
  predicate NoControl(s: string) {
    forall i :: 0 <= i < |s| ==> s[i] >= ' '
  }

  lemma NoControlAppend(a: string, b: string)
    requires NoControl(a) && NoControl(b)
    ensures NoControl(a + b)
  {
    assert forall i :: |a| <= i < |a + b| ==> (a + b)[i] == b[i - |a|];
  }

  lemma {:induction false} EscapeNoControl(s: string)
    ensures NoControl(Escape(s))
  {
    if s != [] {
      EscapeNoControl(s[1..]);
      var c := s[0];
      if c < ' ' && c != '\U{0008}' && c != '\t' && c != '\n' && c != '\U{000C}' && c != '\r' {
        assert c as int / 16 < 16;
        assert NoControl(EscapeChar(c));
      }
      NoControlAppend(EscapeChar(c), Escape(s[1..]));
    }
  }

  lemma QuoteNoControl(s: string)
    ensures NoControl(Quote(s))
  {
    EscapeNoControl(s);
    NoControlAppend("\"", Escape(s));
    NoControlAppend("\"" + Escape(s), "\"");
  }

  /** Serialized JSON contains no control character; in particular no newline,
      so a frame `data: <json>` is exactly one line. */
  lemma {:induction false} StringifyNoControl(v: Json)
    ensures NoControl(Stringify(v))
    ensures '\n' !in Stringify(v)
    decreases v, 1
  {
    match v
    case JNull =>
    case JBool(b) =>
    case JStr(s) => QuoteNoControl(s);
    case JArr(items) =>
      ItemsNoControl(items);
      NoControlAppend("[", StringifyItems(items));
      NoControlAppend("[" + StringifyItems(items), "]");
    case JObj(ms) =>
      MembersNoControl(ms);
      NoControlAppend("{", StringifyMembers(ms));
      NoControlAppend("{" + StringifyMembers(ms), "}");
  }

  lemma {:induction false} ItemsNoControl(items: seq<Json>)
    ensures NoControl(StringifyItems(items))
    decreases items
  {
    if items != [] {
      StringifyNoControl(items[0]);
      if |items| > 1 {
        ItemsNoControl(items[1..]);
        NoControlAppend(",", StringifyItems(items[1..]));
        NoControlAppend(Stringify(items[0]), "," + StringifyItems(items[1..]));
      } else {
        assert StringifyItems(items) == Stringify(items[0]) + "";
        assert Stringify(items[0]) + "" == Stringify(items[0]);
      }
    }
  }

  lemma {:induction false} MembersNoControl(ms: seq<Member>)
    ensures NoControl(StringifyMembers(ms))
    decreases ms
  {
    if ms != [] {
      QuoteNoControl(ms[0].key);
      StringifyNoControl(ms[0].value);
      NoControlAppend(Quote(ms[0].key), ":");
      NoControlAppend(Quote(ms[0].key) + ":", Stringify(ms[0].value));
      if |ms| > 1 {
        MembersNoControl(ms[1..]);
        NoControlAppend(",", StringifyMembers(ms[1..]));
        NoControlAppend(StringifyMember(ms[0]), "," + StringifyMembers(ms[1..]));
      } else {
        assert StringifyMembers(ms) == StringifyMember(ms[0]) + "";
        assert StringifyMember(ms[0]) + "" == StringifyMember(ms[0]);
      }
    }
  }

  // ---------------------------------------------------------------------------
  // Round trip: JSON.parse(JSON.stringify(v)) == v
  // ---------------------------------------------------------------------------

  lemma HexDigitValue(n: nat)
    requires n < 16
    ensures HexValue(HexDigits[n]) == Some(n)
  {
  }

  /** Reading back the escape of one character yields that character. */
  lemma EscapeCharRoundTrip(c: char, tail: string)
    ensures ParseString(EscapeChar(c) + tail) == PrependChar(c, ParseString(tail))
  {
    var e := EscapeChar(c);
    var s := e + tail;
    if c == '"' || c == '\\' || c == '\U{0008}' || c == '\t' || c == '\n' || c == '\U{000C}' || c == '\r' {
      assert s[0] == '\\' && s[2..] == tail;
    } else if c < ' ' {
      var hi, lo := c as int / 16, c as int % 16;
      HexDigitValue(hi);
      HexDigitValue(lo);
      assert s[0] == '\\' && s[1] == 'u';
      assert s[2..6] == ['0', '0', HexDigits[hi], HexDigits[lo]];
      assert HexChar(s[2..6]) == Some(c);
      assert s[6..] == tail;
    } else {
      assert s[0] == c && s[1..] == tail;
    }
  }

  lemma {:induction false} EscapeRoundTrip(str: string, rest: string)
    ensures ParseString(Escape(str) + "\"" + rest) == Some((str, rest))
  {
    if str == [] {
      assert Escape(str) + "\"" + rest == "\"" + rest;
      assert ("\"" + rest)[1..] == rest;
    } else {
      var tail := Escape(str[1..]) + "\"" + rest;
      assert Escape(str) + "\"" + rest == EscapeChar(str[0]) + tail;
      EscapeCharRoundTrip(str[0], tail);
      EscapeRoundTrip(str[1..], rest);
      assert [str[0]] + str[1..] == str;
    }
  }

  lemma NotStartsWith(s: string, p: string)
    requires s != [] && p != [] && s[0] != p[0]
    ensures !StartsWith(s, p)
  {
    if |p| <= |s| {
      assert s[..|p|][0] == s[0];
    }
  }

  lemma NotLiteral(s: string)
    requires s != [] && (s[0] == '"' || s[0] == '[' || s[0] == '{')
    ensures !StartsWith(s, "null") && !StartsWith(s, "true") && !StartsWith(s, "false")
  {
    NotStartsWith(s, "null");
    NotStartsWith(s, "true");
    NotStartsWith(s, "false");
  }

  lemma SkipWsStops(s: string)
    requires s != [] && !IsJsonWs(s[0])
    ensures SkipWs(s) == s
  {
  }

  /** The parser reads back exactly the value that was serialized, and leaves
      whatever followed it untouched. */
  lemma {:induction false} ValueRoundTrip(v: Json, rest: string)
    ensures ParseValue(Stringify(v) + rest) == Some((v, rest))
    decreases v, 1
  {
    match v
    case JNull => LiteralRoundTrip(v, rest);
    case JBool(_) => LiteralRoundTrip(v, rest);
    case JStr(str) => StringRoundTrip(str, rest);
    case JArr(items) => ArrayRoundTrip(items, rest);
    case JObj(ms) => ObjectRoundTrip(ms, rest);
  }

  lemma LiteralRoundTrip(v: Json, rest: string)
    requires v.JNull? || v.JBool?
    ensures ParseValue(Stringify(v) + rest) == Some((v, rest))
  {
    var s := Stringify(v) + rest;
    SkipWsStops(s);
    if v.JNull? {
      assert s[..4] == "null" && s[4..] == rest;
    } else if v.b {
      NotStartsWith(s, "null");
      assert s[..4] == "true" && s[4..] == rest;
    } else {
      NotStartsWith(s, "null");
      NotStartsWith(s, "true");
      assert s[..5] == "false" && s[5..] == rest;
    }
  }

  lemma StringRoundTrip(str: string, rest: string)
    ensures ParseValue(Stringify(JStr(str)) + rest) == Some((JStr(str), rest))
  {
    var s := Stringify(JStr(str)) + rest;
    SkipWsStops(s);
    NotLiteral(s);
    assert s[1..] == Escape(str) + "\"" + rest;
    EscapeRoundTrip(str, rest);
  }

  lemma {:induction false} ArrayRoundTrip(items: seq<Json>, rest: string)
    ensures ParseValue(Stringify(JArr(items)) + rest) == Some((JArr(items), rest))
    decreases JArr(items), 0
  {
    var s := Stringify(JArr(items)) + rest;
    SkipWsStops(s);
    NotLiteral(s);
    var body := StringifyItems(items) + "]" + rest;
    assert s[1..] == body;
    assert ParseValue(s) == ParseArray(body);
    if items == [] {
      assert body == "]" + rest;
      SkipWsStops(body);
      assert body[1..] == rest;
    } else {
      ItemsRoundTrip(items, rest);
      var b := Stringify(items[0]);
      assert body[0] == b[0];
      SkipWsStops(body);
    }
  }

  lemma {:induction false} ObjectRoundTrip(ms: seq<Member>, rest: string)
    ensures ParseValue(Stringify(JObj(ms)) + rest) == Some((JObj(ms), rest))
    decreases JObj(ms), 0
  {
    var s := Stringify(JObj(ms)) + rest;
    SkipWsStops(s);
    NotLiteral(s);
    var body := StringifyMembers(ms) + "}" + rest;
    assert s[1..] == body;
    assert ParseValue(s) == ParseObject(body);
    if ms == [] {
      assert body == "}" + rest;
      SkipWsStops(body);
      assert body[1..] == rest;
    } else {
      MembersRoundTrip(ms, rest);
      assert body[0] == '"';
      SkipWsStops(body);
    }
  }

  function PrependItem(v: Json, r: Option<(seq<Json>, string)>): Option<(seq<Json>, string)>
  {
    match r
    case None => None
    case Some((vs, rest)) => Some(([v] + vs, rest))
  }

  function PrependMember(m: Member, r: Option<(seq<Member>, string)>): Option<(seq<Member>, string)>
  {
    match r
    case None => None
    case Some((ms, rest)) => Some(([m] + ms, rest))
  }

  /** One step of the array parser, once its first element is read. */
  lemma ElementsStep(s: string, v: Json, tail: string)
    requires ParseValue(s) == Some((v, tail))
    requires tail != [] && (tail[0] == ',' || tail[0] == ']')
    ensures tail[0] == ']' ==> ParseElements(s) == Some(([v], tail[1..]))
    ensures tail[0] == ',' ==> ParseElements(s) == PrependItem(v, ParseElements(tail[1..]))
  {
    SkipWsStops(tail);
  }

  lemma {:induction false} ItemsRoundTrip(items: seq<Json>, rest: string)
    requires items != []
    ensures ParseElements(StringifyItems(items) + "]" + rest) == Some((items, rest))
    decreases items
  {
    if |items| == 1 {
      LastItemRoundTrip(items, rest);
    } else {
      ItemsHead(items, rest);
      ItemsRoundTrip(items[1..], rest);
      assert [items[0]] + items[1..] == items;
    }
  }

  /** The array parser reads the first of several items, then the rest. */
  lemma {:induction false} ItemsHead(items: seq<Json>, rest: string)
    requires |items| > 1
    ensures ParseElements(StringifyItems(items) + "]" + rest)
            == PrependItem(items[0], ParseElements(StringifyItems(items[1..]) + "]" + rest))
    decreases items, 0
  {
    var more := StringifyItems(items[1..]) + "]" + rest;
    ItemsUnfold(items);
    Regroup(StringifyItems(items), Stringify(items[0]), StringifyItems(items[1..]), rest);
    ValueRoundTrip(items[0], "," + more);
    CommaStep(StringifyItems(items) + "]" + rest, items[0], more);
  }

  lemma ItemsUnfold(items: seq<Json>)
    requires |items| > 1
    ensures StringifyItems(items) == Stringify(items[0]) + ("," + StringifyItems(items[1..]))
  {
  }

  lemma AppendAssoc(a: string, b: string, c: string)
    ensures a + b + c == a + (b + c)
  {
  }

  lemma Regroup(x: string, h: string, t: string, rest: string)
    requires x == h + ("," + t)
    ensures x + "]" + rest == h + ("," + (t + "]" + rest))
  {
  }

  lemma CommaStep(s: string, v: Json, more: string)
    requires ParseValue(s) == Some((v, "," + more))
    ensures ParseElements(s) == PrependItem(v, ParseElements(more))
  {
    ElementsStep(s, v, "," + more);
    assert ("," + more)[1..] == more;
  }

  lemma {:induction false} LastItemRoundTrip(items: seq<Json>, rest: string)
    requires |items| == 1
    ensures ParseElements(StringifyItems(items) + "]" + rest) == Some((items, rest))
    decreases items, 0
  {
    var head := Stringify(items[0]);
    var s := StringifyItems(items) + "]" + rest;
    assert s == head + ("]" + rest) by {
      assert StringifyItems(items) == head + "";
    }
    ValueRoundTrip(items[0], "]" + rest);
    ElementsStep(s, items[0], "]" + rest);
    assert ("]" + rest)[1..] == rest;
    assert [items[0]] == items;
  }

  /** One step of the object parser, once its first key and value are read. */
  lemma MembersStep(s: string, key: string, afterKey: string, v: Json, tail: string)
    requires s != [] && s[0] == '"'
    requires ParseString(s[1..]) == Some((key, afterKey))
    requires afterKey != [] && afterKey[0] == ':'
    requires ParseValue(afterKey[1..]) == Some((v, tail))
    requires tail != [] && (tail[0] == ',' || tail[0] == '}')
    ensures tail[0] == '}' ==> ParseMembers(s) == Some(([Member(key, v)], tail[1..]))
    ensures tail[0] == ',' ==> ParseMembers(s) == PrependMember(Member(key, v), ParseMembers(tail[1..]))
  {
    SkipWsStops(s);
    SkipWsStops(afterKey);
    SkipWsStops(tail);
  }

  lemma {:induction false} MembersRoundTrip(ms: seq<Member>, rest: string)
    requires ms != []
    ensures ParseMembers(StringifyMembers(ms) + "}" + rest) == Some((ms, rest))
    decreases ms, 1
  {
    if |ms| == 1 {
      FirstMemberRoundTrip(ms, rest);
      assert [ms[0]] == ms;
    } else {
      var x := StringifyMembers(ms) + "}" + rest;
      var y := StringifyMembers(ms[1..]) + "}" + rest;
      FirstMemberRoundTrip(ms, rest);
      assert ParseMembers(x) == PrependMember(ms[0], ParseMembers(y));
      MembersRoundTrip(ms[1..], rest);
      assert ParseMembers(y) == Some((ms[1..], rest));
      assert [ms[0]] + ms[1..] == ms;
    }
  }

  /** Reading the first member of a serialized member list. */
  lemma FirstMemberRoundTrip(ms: seq<Member>, rest: string)
    requires ms != []
    ensures |ms| == 1 ==> ParseMembers(StringifyMembers(ms) + "}" + rest) == Some(([ms[0]], rest))
    ensures |ms| > 1 ==>
      ParseMembers(StringifyMembers(ms) + "}" + rest)
      == PrependMember(ms[0], ParseMembers(StringifyMembers(ms[1..]) + "}" + rest))
    decreases ms, 0
  {
    var s := StringifyMembers(ms) + "}" + rest;
    if |ms| == 1 {
      assert s == StringifyMember(ms[0]) + ("}" + rest) by {
        assert StringifyMembers(ms) == StringifyMember(ms[0]) + "";
      }
      MemberRoundTrip(ms[0], "}" + rest);
      assert ("}" + rest)[1..] == rest;
    } else {
      var more := StringifyMembers(ms[1..]) + "}" + rest;
      assert s == StringifyMember(ms[0]) + ("," + more) by {
        assert StringifyMembers(ms) == StringifyMember(ms[0]) + ("," + StringifyMembers(ms[1..]));
      }
      MemberRoundTrip(ms[0], "," + more);
      assert ("," + more)[1..] == more;
    }
  }

  /** Reading one serialized `"key":value` member followed by a comma or a brace. */
  lemma {:induction false} MemberRoundTrip(m: Member, tail: string)
    requires tail != [] && (tail[0] == ',' || tail[0] == '}')
    ensures tail[0] == '}' ==> ParseMembers(StringifyMember(m) + tail) == Some(([m], tail[1..]))
    ensures tail[0] == ',' ==> ParseMembers(StringifyMember(m) + tail) == PrependMember(m, ParseMembers(tail[1..]))
    decreases m, 0
  {
    var keyText := Escape(m.key) + "\"";
    var valueText := Stringify(m.value);
    MemberRegroup(Escape(m.key), valueText, tail);
    EscapeRoundTrip(m.key, ":" + valueText + tail);
    ValueRoundTrip(m.value, tail);
    MemberParse(keyText, m.key, valueText, m.value, tail);
  }

  lemma MemberRegroup(e: string, v: string, tail: string)
    ensures "\"" + e + "\"" + ":" + v + tail == "\"" + ((e + "\"") + (":" + v + tail))
  {
  }

  /** The object parser on one member, given what the string and value parsers read. */
  lemma MemberParse(keyText: string, key: string, valueText: string, v: Json, tail: string)
    requires ParseString(keyText + (":" + valueText + tail)) == Some((key, ":" + valueText + tail))
    requires ParseValue(valueText + tail) == Some((v, tail))
    requires tail != [] && (tail[0] == ',' || tail[0] == '}')
    ensures tail[0] == '}' ==> ParseMembers("\"" + (keyText + (":" + valueText + tail))) == Some(([Member(key, v)], tail[1..]))
    ensures tail[0] == ',' ==> ParseMembers("\"" + (keyText + (":" + valueText + tail)))
                               == PrependMember(Member(key, v), ParseMembers(tail[1..]))
  {
    var afterKey := ":" + valueText + tail;
    var s := "\"" + (keyText + afterKey);
    assert s[0] == '"' && s[1..] == keyText + afterKey;
    assert afterKey[0] == ':' && afterKey[1..] == valueText + tail;
    MembersStep(s, key, afterKey, v, tail);
  }

  /** `JSON.parse(JSON.stringify(v))` gives `v` back: the serializer is injective. */
  lemma RoundTrip(v: Json)
    ensures Parse(Stringify(v)) == Some(v)
  {
    ValueRoundTrip(v, "");
    assert Stringify(v) + "" == Stringify(v);
  }

  lemma StringifyInjective(v: Json, w: Json)
    requires Stringify(v) == Stringify(w)
    ensures v == w
  {
    RoundTrip(v);
    RoundTrip(w);
  }
}
