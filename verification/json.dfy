/** JSON texts (RFC 8259): the canonical printer of Go's encoding/json and its parser. */
module Json {
  import opened Wrappers

  datatype Json =
    | JNull
    | JBool(b: bool)
    | JNum(lit: string)
    | JStr(s: string)
    | JArr(items: Items)
    | JObj(members: Members)

  datatype Items = NoItems | Item(head: Json, tail: Items)
  datatype Members = NoMembers | Member(key: string, value: Json, tail: Members)

  // ----- strings (section 7) -----

  function HexDigit(d: nat): char
    requires d < 16
  {
    if d < 10 then ('0' as int + d) as char else ('a' as int + d - 10) as char
  }

  function HexValue(c: char): (r: Option<nat>)
    ensures r.Some? ==> r.value < 16
  {
    if '0' <= c <= '9' then Some(c as int - '0' as int)
    else if 'a' <= c <= 'f' then Some(c as int - 'a' as int + 10)
    else if 'A' <= c <= 'F' then Some(c as int - 'A' as int + 10)
    else None
  }

  function Hex4(n: nat): string
    requires n < 0x1_0000
  {
    [HexDigit(n / 0x1000), HexDigit(n / 0x100 % 16), HexDigit(n / 16 % 16), HexDigit(n % 16)]
  }

  /** The code unit of an escape `\uXXXX` at the front of `s`. */
  function CodeUnit(s: string): (r: Option<nat>)
    ensures r.Some? ==> |s| >= 6 && r.value < 0x1_0000
  {
    if |s| < 6 || s[0] != '\\' || s[1] != 'u' then None
    else
      match (HexValue(s[2]), HexValue(s[3]), HexValue(s[4]), HexValue(s[5]))
      case (Some(a), Some(b), Some(c), Some(d)) => Some(0x1000 * a + 0x100 * b + 16 * c + d)
      case _ => None
  }

  const REPLACEMENT: char := '\U{FFFD}'

  function EscapeChar(c: char): (e: string)
    ensures 1 <= |e| <= 6
  {
    if c == '"' then ['\\', '"']
    else if c == '\\' then ['\\', '\\']
    else if c as int == 8 then ['\\', 'b']
    else if c as int == 12 then ['\\', 'f']
    else if c == '\n' then ['\\', 'n']
    else if c == '\r' then ['\\', 'r']
    else if c == '\t' then ['\\', 't']
    else if c < ' ' || c in {'<', '>', '&'} || c as int == 0x2028 || c as int == 0x2029 then ['\\', 'u'] + Hex4(c as int)
    else [c]
  }

  function Escape(s: string): string {
    if s == "" then "" else EscapeChar(s[0]) + Escape(s[1..])
  }

  function Quote(s: string): string { ['"'] + Escape(s) + ['"'] }

  datatype Parsed<+T> = Fail | Ok(value: T, rest: string)

  /** One character of a string body and the number of characters that denote it. */
  function ParseChar(s: string): (r: Option<(char, nat)>)
    requires s != ""
    ensures r.Some? ==> 1 <= r.value.1 <= |s|
  {
    if s[0] < ' ' then None
    else if s[0] != '\\' then Some((s[0], 1))
    else if |s| < 2 then None
    else if s[1] == 'u' then
      match CodeUnit(s)
      case None => None
      case Some(u) =>
        if !(0xd800 <= u < 0xe000) then Some((u as char, 6))
        else
          match CodeUnit(s[6..])
          case Some(v) =>
            if u < 0xdc00 && 0xdc00 <= v < 0xe000
            then Some(((0x1_0000 + 0x400 * (u - 0xd800) + (v - 0xdc00)) as char, 12))
            else Some((REPLACEMENT, 6))
          case None => Some((REPLACEMENT, 6))
    else if s[1] in {'"', '\\', '/'} then Some((s[1], 2))
    else if s[1] == 'b' then Some((8 as char, 2))
    else if s[1] == 'f' then Some((12 as char, 2))
    else if s[1] == 'n' then Some(('\n', 2))
    else if s[1] == 'r' then Some(('\r', 2))
    else if s[1] == 't' then Some(('\t', 2))
    else None
  }

  /** The body of a string after its opening quote, up to and with the closing one. */
  function ParseChars(s: string): (r: Parsed<string>)
    ensures r.Ok? ==> |r.rest| < |s|
  {
    if s == "" then Fail
    else if s[0] == '"' then Ok("", s[1..])
    else
      match ParseChar(s)
      case None => Fail
      case Some((c, n)) =>
        match ParseChars(s[n..])
        case Fail => Fail
        case Ok(t, rest) => Ok([c] + t, rest)
  }

  // ----- numbers (section 6) -----

  predicate IsDigit(c: char) { '0' <= c <= '9' }

  function CountDigits(s: string): (n: nat)
    ensures n <= |s|
  {
    if s != "" && IsDigit(s[0]) then 1 + CountDigits(s[1..]) else 0
  }

  /** Length of an optional `.digits`; None when the digits are missing. */
  function ScanFraction(s: string): (n: Option<nat>)
    ensures n.Some? ==> n.value <= |s|
  {
    if s == "" || s[0] != '.' then Some(0)
    else
      var k := CountDigits(s[1..]);
      if k == 0 then None else Some(1 + k)
  }

  /** Length of an optional exponent; None when its digits are missing. */
  function ScanExponent(s: string): (n: Option<nat>)
    ensures n.Some? ==> n.value <= |s|
  {
    if s == "" || s[0] !in {'e', 'E'} then Some(0)
    else
      var sign := if |s| > 1 && s[1] in {'+', '-'} then 1 else 0;
      var k := CountDigits(s[1 + sign..]);
      if k == 0 then None else Some(1 + sign + k)
  }

  /** Length of an integer part: an optional minus, then a zero alone or digits. */
  function ScanInteger(s: string): (n: Option<nat>)
    ensures n.Some? ==> 1 <= n.value <= |s|
  {
    var sign := if s != "" && s[0] == '-' then 1 else 0;
    var k := CountDigits(s[sign..]);
    if k == 0 then None else Some(sign + if s[sign] == '0' then 1 else k)
  }

  /** Length of the number at the front of `s`. */
  function ScanNumber(s: string): (n: Option<nat>)
    ensures n.Some? ==> 1 <= n.value <= |s|
  {
    match ScanInteger(s)
    case None => None
    case Some(i) =>
      match ScanFraction(s[i..])
      case None => None
      case Some(f) =>
        match ScanExponent(s[i + f..])
        case None => None
        case Some(e) => Some(i + f + e)
  }

  // ----- values (sections 2 to 5) -----

  function SkipWs(s: string): (r: string)
    ensures |r| <= |s|
  {
    if s != "" && s[0] in {' ', '\t', '\n', '\r'} then SkipWs(s[1..]) else s
  }

  function Print(j: Json): (t: string) {
    match j
    case JNull => "null"
    case JBool(b) => if b then "true" else "false"
    case JNum(lit) => lit
    case JStr(s) => Quote(s)
    case JArr(items) => if items.NoItems? then "[]" else "[" + PrintItems(items)
    case JObj(members) => if members.NoMembers? then "{}" else "{" + PrintMembers(members)
  }

  function PrintItems(items: Items): string
    requires items.Item?
  {
    Print(items.head) + if items.tail.NoItems? then "]" else "," + PrintItems(items.tail)
  }

  function PrintMembers(members: Members): string
    requires members.Member?
  {
    Quote(members.key) + ":" + Print(members.value)
    + if members.tail.NoMembers? then "}" else "," + PrintMembers(members.tail)
  }

  function ParseLiteral(s: string, word: string, j: Json): (r: Parsed<Json>)
    requires word != ""
    ensures r.Ok? ==> |r.rest| < |s|
  {
    if word <= s then Ok(j, s[|word|..]) else Fail
  }

  function ParseValue(text: string): (r: Parsed<Json>)
    ensures r.Ok? ==> |r.rest| < |text|
    decreases |text|, 1
  {
    var s := SkipWs(text);
    if s == "" then Fail
    else if s[0] == 'n' then ParseLiteral(s, "null", JNull)
    else if s[0] == 't' then ParseLiteral(s, "true", JBool(true))
    else if s[0] == 'f' then ParseLiteral(s, "false", JBool(false))
    else if s[0] == '"' then
      match ParseChars(s[1..])
      case Fail => Fail
      case Ok(t, rest) => Ok(JStr(t), rest)
    else if s[0] == '[' then
      var t := SkipWs(s[1..]);
      if t != "" && t[0] == ']' then Ok(JArr(NoItems), t[1..])
      else
        match ParseItems(s[1..])
        case Fail => Fail
        case Ok(items, rest) => Ok(JArr(items), rest)
    else if s[0] == '{' then
      var t := SkipWs(s[1..]);
      if t != "" && t[0] == '}' then Ok(JObj(NoMembers), t[1..])
      else
        match ParseMembers(s[1..])
        case Fail => Fail
        case Ok(members, rest) => Ok(JObj(members), rest)
    else
      match ScanNumber(s)
      case None => Fail
      case Some(n) => Ok(JNum(s[..n]), s[n..])
  }

  function ParseItems(s: string): (r: Parsed<Items>)
    ensures r.Ok? ==> |r.rest| < |s|
    decreases |s|, 2
  {
    match ParseValue(s)
    case Fail => Fail
    case Ok(v, rest) =>
      var t := SkipWs(rest);
      if t != "" && t[0] == ']' then Ok(Item(v, NoItems), t[1..])
      else if t != "" && t[0] == ',' then
        match ParseItems(t[1..])
        case Fail => Fail
        case Ok(tail, u) => Ok(Item(v, tail), u)
      else Fail
  }

  function ParseMembers(s: string): (r: Parsed<Members>)
    ensures r.Ok? ==> |r.rest| < |s|
    decreases |s|, 2
  {
    var k := SkipWs(s);
    if k == "" || k[0] != '"' then Fail
    else
      match ParseChars(k[1..])
      case Fail => Fail
      case Ok(key, r0) =>
        var c := SkipWs(r0);
        if c == "" || c[0] != ':' then Fail
        else
          match ParseValue(c[1..])
          case Fail => Fail
          case Ok(v, rest) =>
            var t := SkipWs(rest);
            if t != "" && t[0] == '}' then Ok(Member(key, v, NoMembers), t[1..])
            else if t != "" && t[0] == ',' then
              match ParseMembers(t[1..])
              case Fail => Fail
              case Ok(tail, u) => Ok(Member(key, v, tail), u)
            else Fail
  }

  /** A whole JSON text: one value with only white space after it. */
  function Parse(text: string): Option<Json> {
    match ParseValue(text)
    case Ok(j, rest) => if SkipWs(rest) == "" then Some(j) else None
    case Fail => None
  }

  /** The number literals inside are JSON numbers. */
  predicate Valid(j: Json) {
    match j
    case JNum(lit) => ScanNumber(lit) == Some(|lit|)
    case JArr(items) => ValidItems(items)
    case JObj(members) => ValidMembers(members)
    case _ => true
  }

  predicate ValidItems(items: Items) {
    items.Item? ==> Valid(items.head) && ValidItems(items.tail)
  }

  predicate ValidMembers(members: Members) {
    members.Member? ==> Valid(members.value) && ValidMembers(members.tail)
  }

  // ----- the parser undoes the printer -----

  /** What may follow a printed value: nothing, or a structural character. */
  predicate Stops(rest: string) {
    rest == "" || rest[0] in {',', ']', '}'}
  }

  lemma DigitRoundTrip(d: nat)
    requires d < 16
    ensures HexValue(HexDigit(d)) == Some(d)
  {
  }

  lemma DigitsOf(n: nat)
    requires n < 0x1_0000
    ensures n == 0x1000 * (n / 0x1000) + 0x100 * (n / 0x100 % 16) + 16 * (n / 16 % 16) + n % 16 && n / 0x1000 < 16
  {
  }

  lemma HexRoundTrip(n: nat, tail: string)
    requires n < 0x1_0000
    ensures CodeUnit(['\\', 'u'] + Hex4(n) + tail) == Some(n)
  {
    hide HexDigit, HexValue;
    DigitsOf(n);
    DigitRoundTrip(n / 0x1000);
    DigitRoundTrip(n / 0x100 % 16);
    DigitRoundTrip(n / 16 % 16);
    DigitRoundTrip(n % 16);
    var s := ['\\', 'u'] + Hex4(n) + tail;
    assert s[2] == HexDigit(n / 0x1000) && s[3] == HexDigit(n / 0x100 % 16)
        && s[4] == HexDigit(n / 16 % 16) && s[5] == HexDigit(n % 16);
  }

  lemma CharRoundTrip(c: char, tail: string)
    ensures var e := EscapeChar(c);
      ParseChar(e + tail) == Some((c, |e|)) && (e + tail)[0] != '"' && (e + tail)[|e|..] == tail
  {
    HexRoundTrip(if c as int < 0x1_0000 then c as int else 0, tail);
  }

  lemma {:induction false} StringRoundTrip(s: string, tail: string)
    ensures ParseChars(Escape(s) + ['"'] + tail) == Ok(s, tail)
  {
    hide EscapeChar, ParseChar;
    if s == "" {
      var t := ['"'] + tail;
      assert Escape(s) + ['"'] + tail == t && t[1..] == tail;
    } else {
      StringRoundTrip(s[1..], tail);
      var t := Escape(s[1..]) + ['"'] + tail;
      CharRoundTrip(s[0], t);
      assert Escape(s) + ['"'] + tail == EscapeChar(s[0]) + t;
      assert [s[0]] + s[1..] == s;
    }
  }

  lemma QuoteRoundTrip(s: string, tail: string)
    ensures (Quote(s) + tail)[0] == '"' && ParseChars((Quote(s) + tail)[1..]) == Ok(s, tail)
  {
    hide Escape, ParseChars;
    StringRoundTrip(s, tail);
    assert (Quote(s) + tail)[1..] == Escape(s) + ['"'] + tail;
  }

  lemma {:induction false} DigitsAhead(s: string, rest: string)
    requires Stops(rest)
    ensures CountDigits(s + rest) == CountDigits(s)
  {
    if s == "" {
      assert s + rest == rest;
    } else {
      assert (s + rest)[1..] == s[1..] + rest;
      DigitsAhead(s[1..], rest);
    }
  }

  lemma FractionAhead(s: string, rest: string)
    requires Stops(rest)
    ensures ScanFraction(s + rest) == ScanFraction(s)
  {
    if s != "" {
      assert (s + rest)[1..] == s[1..] + rest;
      DigitsAhead(s[1..], rest);
    }
  }

  lemma ExponentAhead(s: string, rest: string)
    requires Stops(rest)
    ensures ScanExponent(s + rest) == ScanExponent(s)
  {
    if s != "" {
      var sign := if |s| > 1 && s[1] in {'+', '-'} then 1 else 0;
      assert (s + rest)[1 + sign..] == s[1 + sign..] + rest;
      DigitsAhead(s[1 + sign..], rest);
    }
  }

  lemma IntegerAhead(s: string, rest: string)
    requires Stops(rest) && s != ""
    ensures ScanInteger(s + rest) == ScanInteger(s)
  {
    var sign := if s[0] == '-' then 1 else 0;
    assert (s + rest)[sign..] == s[sign..] + rest;
    DigitsAhead(s[sign..], rest);
  }

  lemma NumberAhead(lit: string, rest: string)
    requires ScanNumber(lit) == Some(|lit|) && Stops(rest)
    ensures ScanNumber(lit + rest) == Some(|lit|)
  {
    hide ScanInteger, ScanFraction, ScanExponent;
    IntegerAhead(lit, rest);
    var i := ScanInteger(lit).value;
    assert (lit + rest)[i..] == lit[i..] + rest;
    FractionAhead(lit[i..], rest);
    var f := ScanFraction(lit[i..]).value;
    assert (lit + rest)[i + f..] == lit[i + f..] + rest;
    ExponentAhead(lit[i + f..], rest);
  }

  /** A printed value is not white space or a closing bracket at its front. */
  lemma PrintStart(j: Json)
    requires Valid(j)
    ensures Print(j) != "" && Print(j)[0] !in {' ', '\t', '\n', '\r', ']', '}'}
  {
  }

  lemma DropFirst(c: char, t: string, rest: string)
    ensures ([c] + t + rest)[1..] == t + rest
    ensures t != "" ==> (t + rest)[0] == t[0] && (t + rest)[1..] == t[1..] + rest
  {
  }

  lemma {:induction false} ValueRoundTrip(j: Json, rest: string)
    requires Valid(j) && Stops(rest)
    ensures ParseValue(Print(j) + rest) == Ok(j, rest)
    decreases j, 0
  {
    match j
    case JArr(items) => ArrayRoundTrip(items, rest);
    case JObj(members) => ObjectRoundTrip(members, rest);
    case _ => ScalarRoundTrip(j, rest);
  }

  lemma ScalarRoundTrip(j: Json, rest: string)
    requires Valid(j) && Stops(rest) && !j.JArr? && !j.JObj?
    ensures ParseValue(Print(j) + rest) == Ok(j, rest)
  {
    hide ParseItems, ParseMembers, ParseChars, ScanNumber;
    match j
    case JNum(lit) => NumberText(lit, rest);
    case JStr(t) => QuoteRoundTrip(t, rest);
    case JNull => assert (Print(j) + rest)[|Print(j)|..] == rest;
    case JBool(_) => assert (Print(j) + rest)[|Print(j)|..] == rest;
  }

  lemma NumberText(lit: string, rest: string)
    requires ScanNumber(lit) == Some(|lit|) && Stops(rest)
    ensures ParseValue(lit + rest) == Ok(JNum(lit), rest)
  {
    hide ParseItems, ParseMembers, ParseChars, CountDigits, ScanFraction, ScanExponent;
    NumberStart(lit);
    NumberAhead(lit, rest);
    assert (lit + rest)[|lit|..] == rest && (lit + rest)[..|lit|] == lit;
  }

  lemma NumberStart(lit: string)
    requires ScanNumber(lit).Some?
    ensures lit != "" && (lit[0] == '-' || IsDigit(lit[0]))
  {
  }

  lemma ArrayText(p: string, rest: string, items: Items)
    requires p != "" && p[0] !in {' ', '\t', '\n', '\r', ']'} && ParseItems(p + rest) == Ok(items, rest)
    ensures ParseValue("[" + p + rest) == Ok(JArr(items), rest)
  {
    hide ParseItems, ParseMembers, ParseChars, ScanNumber;
    DropFirst('[', p, rest);
  }

  lemma ObjectText(p: string, rest: string, members: Members)
    requires p != "" && p[0] == '"' && ParseMembers(p + rest) == Ok(members, rest)
    ensures ParseValue("{" + p + rest) == Ok(JObj(members), rest)
  {
    hide ParseItems, ParseMembers, ParseChars, ScanNumber;
    DropFirst('{', p, rest);
  }

  lemma EmptyText(rest: string)
    ensures ParseValue("[]" + rest) == Ok(JArr(NoItems), rest)
    ensures ParseValue("{}" + rest) == Ok(JObj(NoMembers), rest)
  {
    hide ParseItems, ParseMembers, ParseChars, ScanNumber;
    assert "[]" + rest == "[" + "]" + rest && "{}" + rest == "{" + "}" + rest;
    DropFirst('[', "]", rest);
    DropFirst('{', "}", rest);
  }

  lemma {:induction false} ArrayRoundTrip(items: Items, rest: string)
    requires ValidItems(items) && Stops(rest)
    ensures ParseValue(Print(JArr(items)) + rest) == Ok(JArr(items), rest)
    decreases items, 1
  {
    hide ParseItems, ParseMembers, ParseValue;
    if items.NoItems? {
      EmptyText(rest);
    } else {
      PrintStart(items.head);
      ItemsRoundTrip(items, rest);
      ArrayText(PrintItems(items), rest, items);
    }
  }

  lemma {:induction false} ObjectRoundTrip(members: Members, rest: string)
    requires ValidMembers(members) && Stops(rest)
    ensures ParseValue(Print(JObj(members)) + rest) == Ok(JObj(members), rest)
    decreases members, 1
  {
    hide ParseItems, ParseMembers, ParseValue;
    if members.NoMembers? {
      EmptyText(rest);
    } else {
      MembersRoundTrip(members, rest);
      ObjectText(PrintMembers(members), rest, members);
    }
  }

  lemma {:induction false} ItemsRoundTrip(items: Items, rest: string)
    requires items.Item? && ValidItems(items)
    ensures ParseItems(PrintItems(items) + rest) == Ok(items, rest)
    decreases items, 0
  {
    hide Valid, Print, ParseValue;
    var t := (if items.tail.NoItems? then "]" else "," + PrintItems(items.tail)) + rest;
    assert PrintItems(items) + rest == Print(items.head) + t;
    ValueRoundTrip(items.head, t);
    if items.tail.Item? {
      DropFirst(',', PrintItems(items.tail), rest);
      ItemsRoundTrip(items.tail, rest);
    } else {
      DropFirst(']', "", rest);
    }
  }

  lemma {:induction false} MembersRoundTrip(members: Members, rest: string)
    requires members.Member? && ValidMembers(members)
    ensures ParseMembers(PrintMembers(members) + rest) == Ok(members, rest)
    decreases members, 0
  {
    hide Valid, Print, Quote, ParseChars, ParseValue;
    var t := (if members.tail.NoMembers? then "}" else "," + PrintMembers(members.tail)) + rest;
    var v := ":" + Print(members.value) + t;
    assert PrintMembers(members) + rest == Quote(members.key) + v;
    QuoteRoundTrip(members.key, v);
    DropFirst(':', Print(members.value), t);
    assert Valid(members.value);
    ValueRoundTrip(members.value, t);
    if members.tail.Member? {
      DropFirst(',', PrintMembers(members.tail), rest);
      MembersRoundTrip(members.tail, rest);
    } else {
      DropFirst('}', "", rest);
    }
  }

  /** Parsing what was printed gives the value back. */
  lemma RoundTrip(j: Json)
    requires Valid(j)
    ensures Parse(Print(j)) == Some(j)
  {
    ValueRoundTrip(j, "");
    assert Print(j) + "" == Print(j);
  }

  // ----- what the escapes stand for (section 7) -----

  /** The two-character escapes. */
  lemma ShortEscapes(tail: string)
    ensures ParseChar("\\\"" + tail) == Some(('"', 2)) && ParseChar("\\\\" + tail) == Some(('\\', 2))
    ensures ParseChar("\\/" + tail) == Some(('/', 2))
    ensures ParseChar("\\b" + tail) == Some(('\U{0008}', 2)) && ParseChar("\\f" + tail) == Some(('\U{000C}', 2))
    ensures ParseChar("\\n" + tail) == Some(('\U{000A}', 2)) && ParseChar("\\r" + tail) == Some(('\U{000D}', 2))
    ensures ParseChar("\\t" + tail) == Some(('\U{0009}', 2))
  {
  }

  /** A raw control character and an unknown escape are errors. */
  lemma BadChars(s: string)
    requires s != ""
    ensures s[0] < ' ' ==> ParseChar(s).None?
    ensures s[0] == '\\' && (|s| == 1 || s[1] !in {'"', '\\', '/', 'b', 'f', 'n', 'r', 't', 'u'}) ==> ParseChar(s).None?
  {
  }

  /** Digits of both cases. */
  lemma HexDigits(d: nat)
    requires d < 16
    ensures HexValue("0123456789abcdef"[d]) == Some(d) == HexValue("0123456789ABCDEF"[d])
  {
  }

  /** A character outside the Basic Multilingual Plane, which the printer leaves as it is, may come as its surrogate pair. */
  lemma SurrogatePair(c: char, tail: string)
    requires c as int >= 0x1_0000
    ensures var n := c as int - 0x1_0000;
      ParseChar(['\\', 'u'] + Hex4(0xd800 + n / 0x400) + ['\\', 'u'] + Hex4(0xdc00 + n % 0x400) + tail) == Some((c, 12))
  {
    hide CodeUnit, Hex4;
    var n := c as int - 0x1_0000;
    var low := ['\\', 'u'] + Hex4(0xdc00 + n % 0x400) + tail;
    var s := ['\\', 'u'] + Hex4(0xd800 + n / 0x400) + low;
    HexRoundTrip(0xd800 + n / 0x400, low);
    HexRoundTrip(0xdc00 + n % 0x400, tail);
    assert |Hex4(0xd800 + n / 0x400)| == 4 by { Four(0xd800 + n / 0x400); }
    assert s == ['\\', 'u'] + Hex4(0xd800 + n / 0x400) + ['\\', 'u'] + Hex4(0xdc00 + n % 0x400) + tail;
    assert s[6..] == low && s[0] == '\\' && s[1] == 'u';
  }

  lemma Four(n: nat)
    requires n < 0x1_0000
    ensures |Hex4(n)| == 4
  {
  }

  // ----- the number grammar (section 6) -----

  predicate AllDigits(s: string) { s != "" && forall i :: 0 <= i < |s| ==> '0' <= s[i] <= '9' }

  predicate Unsigned(s: string) { s == "0" || (AllDigits(s) && s[0] != '0') }

  predicate IntegerText(s: string) { Unsigned(s) || (s != "" && s[0] == '-' && Unsigned(s[1..])) }

  predicate FractionText(s: string) { s == "" || (s[0] == '.' && AllDigits(s[1..])) }

  predicate ExponentText(s: string) {
    s == "" || (s[0] in {'e', 'E'} && (AllDigits(s[1..]) || (|s| > 1 && s[1] in {'+', '-'} && AllDigits(s[2..]))))
  }

  predicate NoDigit(rest: string) { rest == "" || !IsDigit(rest[0]) }

  lemma {:induction false} Counted(s: string)
    ensures var k := CountDigits(s); (k > 0 ==> AllDigits(s[..k])) && NoDigit(s[k..])
  {
    if s != "" && IsDigit(s[0]) {
      Counted(s[1..]);
    }
  }

  lemma {:induction false} CountIs(s: string, k: nat)
    requires k <= |s| && (k > 0 ==> AllDigits(s[..k])) && NoDigit(s[k..])
    ensures CountDigits(s) == k
  {
    if k > 0 {
      assert s[..k][0] == s[0] && s[1..][..k - 1] == s[..k][1..] && s[1..][k - 1..] == s[k..];
      CountIs(s[1..], k - 1);
    }
  }

  /** What the count says about digits up to a place where they end. */
  lemma CountIff(s: string, k: nat)
    requires k <= |s| && NoDigit(s[k..])
    ensures k > 0 ==> (CountDigits(s) == k <==> AllDigits(s[..k]))
  {
    hide AllDigits, NoDigit, CountDigits;
    Counted(s);
    if k > 0 && AllDigits(s[..k]) {
      CountIs(s, k);
    }
  }

  lemma IntegerIff(s: string, n: nat)
    requires n <= |s| && NoDigit(s[n..])
    ensures ScanInteger(s) == Some(n) <==> IntegerText(s[..n])
  {
    hide CountDigits, NoDigit;
    var sign := if s != "" && s[0] == '-' then 1 else 0;
    if n > sign {
      assert s[sign..][n - sign..] == s[n..] && s[sign..][..n - sign] == s[..n][sign..];
      CountIff(s[sign..], n - sign);
      Leading(s[sign..]);
    }
  }

  lemma Leading(s: string)
    ensures s != "" && IsDigit(s[0]) <==> CountDigits(s) > 0
  {
  }

  lemma FractionIff(s: string, n: nat)
    requires n <= |s| && NoDigit(s[n..]) && (n == 0 ==> s == "" || s[0] != '.')
    ensures ScanFraction(s) == Some(n) <==> FractionText(s[..n])
  {
    hide CountDigits, AllDigits, NoDigit;
    if n > 0 {
      assert s[1..][n - 1..] == s[n..] && s[1..][..n - 1] == s[..n][1..] && s[..n][0] == s[0];
      CountIff(s[1..], n - 1);
      NoDigits();
    }
  }

  lemma NoDigits()
    ensures !AllDigits("")
  {
  }

  lemma ExponentIff(s: string)
    ensures ScanExponent(s) == Some(|s|) <==> ExponentText(s)
  {
    hide CountDigits;
    if s != "" {
      var k := 1 + if |s| > 1 && s[1] in {'+', '-'} then 1 else 0;
      Counted(s[k..]);
      if AllDigits(s[k..]) {
        CountIs(s[k..], |s| - k);
      }
    }
  }

  /** An integer, a fraction or nothing, and an exponent or nothing. */
  predicate Parts(lit: string, i: nat, f: nat) {
    i + f <= |lit| && IntegerText(lit[..i]) && FractionText(lit[i..i + f]) && ExponentText(lit[i + f..])
  }

  /** The number literals are those of the grammar. */
  lemma NumberIff(lit: string)
    ensures ScanNumber(lit) == Some(|lit|) <==> exists i: nat, f: nat :: Parts(lit, i, f)
  {
    hide Parts, ScanNumber;
    if ScanNumber(lit) == Some(|lit|) {
      var _, _ := NumberParts(lit);
    }
    if i: nat, f: nat :| Parts(lit, i, f) {
      NumberOf(lit, i, f);
    }
  }

  lemma NumberOf(lit: string, i: nat, f: nat)
    requires Parts(lit, i, f)
    ensures ScanNumber(lit) == Some(|lit|)
  {
    hide ScanInteger, ScanFraction, ScanExponent, IntegerText;
    var s := lit[i..];
    assert s[..f] == lit[i..i + f] && s[f..] == lit[i + f..];
    assert s != "" ==> s[0] == if f > 0 then s[..f][0] else s[f..][0];
    IntegerIff(lit, i);
    FractionIff(s, f);
    ExponentIff(s[f..]);
  }

  lemma NumberParts(lit: string) returns (i: nat, f: nat)
    requires ScanNumber(lit) == Some(|lit|)
    ensures Parts(lit, i, f)
  {
    hide IntegerText, FractionText, ExponentText;
    i := ScanInteger(lit).value;
    f := ScanFraction(lit[i..]).value;
    var s := lit[i..];
    assert s[..f] == lit[i..i + f] && s[f..] == lit[i + f..];
    ScannedInteger(lit);
    ScannedFraction(s);
    ExponentIff(s[f..]);
  }

  lemma ScannedInteger(s: string)
    requires ScanInteger(s).Some?
    ensures IntegerText(s[..ScanInteger(s).value])
  {
    hide CountDigits;
    var sign := if s[0] == '-' then 1 else 0;
    Counted(s[sign..]);
    var n := ScanInteger(s).value;
    assert s[sign..][..n - sign] == s[..n][sign..];
    assert AllDigits(s[sign..][..CountDigits(s[sign..])]);
  }

  lemma ScannedFraction(s: string)
    requires ScanFraction(s).Some?
    ensures FractionText(s[..ScanFraction(s).value])
  {
    hide CountDigits;
    var n := ScanFraction(s).value;
    if n > 0 {
      Counted(s[1..]);
      assert s[..n][1..] == s[1..][..n - 1];
    }
  }

  // ----- a printed value is one line -----

  predicate OneLine(s: string) {
    forall i :: 0 <= i < |s| ==> s[i] >= ' '
  }

  lemma {:induction false} EscapeOneLine(s: string)
    ensures OneLine(Escape(s))
  {
    if s != "" {
      EscapeOneLine(s[1..]);
      assert OneLine(EscapeChar(s[0]));
    }
  }

  lemma {:induction false} DigitsOneLine(s: string)
    ensures OneLine(s[..CountDigits(s)])
  {
    if s != "" && IsDigit(s[0]) {
      DigitsOneLine(s[1..]);
      assert s[..CountDigits(s)] == [s[0]] + s[1..][..CountDigits(s[1..])];
    }
  }

  lemma NumberOneLine(lit: string)
    requires ScanNumber(lit) == Some(|lit|)
    ensures OneLine(lit)
  {
    hide CountDigits, ScanInteger, ScanFraction, ScanExponent;
    var i := ScanInteger(lit).value;
    var f := ScanFraction(lit[i..]).value;
    IntegerOneLine(lit);
    FractionOneLine(lit[i..]);
    ExponentOneLine(lit[i + f..]);
    assert lit == lit[..i] + lit[i..][..f] + lit[i + f..];
  }

  lemma IntegerOneLine(s: string)
    requires ScanInteger(s).Some?
    ensures OneLine(s[..ScanInteger(s).value])
  {
    hide CountDigits;
    var sign := if s[0] == '-' then 1 else 0;
    DigitsOneLine(s[sign..]);
    var n := ScanInteger(s).value;
    forall j | 0 <= j < n ensures s[j] >= ' ' {
      if j >= sign {
        assert s[j] == s[sign..][..CountDigits(s[sign..])][j - sign];
      }
    }
  }

  lemma FractionOneLine(s: string)
    requires ScanFraction(s).Some?
    ensures OneLine(s[..ScanFraction(s).value])
  {
    hide CountDigits;
    if ScanFraction(s).value != 0 {
      DigitsOneLine(s[1..]);
      assert s[..ScanFraction(s).value] == [s[0]] + s[1..][..CountDigits(s[1..])];
    }
  }

  lemma ExponentOneLine(s: string)
    requires ScanExponent(s).Some?
    ensures OneLine(s[..ScanExponent(s).value])
  {
    hide CountDigits;
    if ScanExponent(s).value != 0 {
      var k := 1 + if |s| > 1 && s[1] in {'+', '-'} then 1 else 0;
      DigitsOneLine(s[k..]);
      assert s[..ScanExponent(s).value] == s[..k] + s[k..][..CountDigits(s[k..])];
    }
  }

  lemma {:induction false} PrintOneLine(j: Json)
    requires Valid(j)
    ensures OneLine(Print(j))
    decreases j
  {
    match j
    case JNum(lit) => NumberOneLine(lit);
    case JStr(s) => EscapeOneLine(s);
    case JArr(items) =>
      if items.Item? {
        ItemsOneLine(items);
      }
    case JObj(members) =>
      if members.Member? {
        MembersOneLine(members);
      }
    case _ =>
  }

  lemma {:induction false} ItemsOneLine(items: Items)
    requires items.Item? && ValidItems(items)
    ensures OneLine(PrintItems(items))
    decreases items
  {
    PrintOneLine(items.head);
    if items.tail.Item? {
      ItemsOneLine(items.tail);
    }
  }

  lemma {:induction false} MembersOneLine(members: Members)
    requires members.Member? && ValidMembers(members)
    ensures OneLine(PrintMembers(members))
    decreases members
  {
    EscapeOneLine(members.key);
    PrintOneLine(members.value);
    if members.tail.Member? {
      MembersOneLine(members.tail);
    }
  }
}
