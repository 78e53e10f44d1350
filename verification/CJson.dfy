/**
 JSON texts and trees as moxi/cJSON.c prints and parses them, as functions; the loops that
 compute them are in CJsonPrint and CJsonParse.  Texts are byte sequences; a C string is one
 without NUL, and the parser reads a text that a NUL ends.
 */
module CJson {
  type Byte = x: int | 0 <= x < 256
  type Bytes = seq<Byte>
  type CString = s: Bytes | 0 !in s

  /** The integers that valueint holds. */
  type Int32 = x: int | -0x8000_0000 <= x < 0x8000_0000

  datatype Json =
    | Null
    | False
    | True
    | Number(n: Int32)
    | Str(s: CString)
    | Arr(elems: seq<Json>)
    | Obj(members: seq<Member>)
  datatype Member = Member(name: CString, value: Json)

  const NULL_TEXT: Bytes := [110, 117, 108, 108]
  const FALSE_TEXT: Bytes := [102, 97, 108, 115, 101]
  const TRUE_TEXT: Bytes := [116, 114, 117, 101]
  const QUOTE: Byte := 34
  const BACKSLASH: Byte := 92
  const COMMA: Byte := 44
  const COLON: Byte := 58
  const MINUS: Byte := 45
  const OPEN: Byte := 91
  const CLOSE: Byte := 93
  const OPEN_OBJ: Byte := 123
  const CLOSE_OBJ: Byte := 125
  const NEWLINE: Byte := 10
  const TAB: Byte := 9
  const SPACE: Byte := 32

  // ----------------------------------------------------------------------------------------
  // Printing

  /** The letter of a two-character escape: quote, backslash, \b, \f, \n, \r, \t. */
  function Letter(c: Byte): (r: Byte)
    ensures r != 0 && r != 117
  {
    if c == 8 then 98 else if c == 12 then 102 else if c == 10 then 110 else if c == 13 then 114
    else if c == 9 then 116 else if c == QUOTE || c == BACKSLASH then c else 63
  }

  predicate Plain(c: Byte) { c > 31 && c != QUOTE && c != BACKSLASH }

  predicate Escaped(c: Byte) { c == QUOTE || c == BACKSLASH || c == 8 || 9 <= c <= 10 || 12 <= c <= 13 }

  /** How one byte of a string is printed; other control bytes vanish. */
  function PrintByte(c: Byte): Bytes {
    if Plain(c) then [c] else if Escaped(c) then [BACKSLASH, Letter(c)] else []
  }

  function PrintBytes(s: Bytes): Bytes { if s == [] then [] else PrintByte(s[0]) + PrintBytes(s[1..]) }

  function PrintString(s: Bytes): Bytes { [QUOTE] + PrintBytes(s) + [QUOTE] }

  function Digits(n: nat): Bytes { if n < 10 then [48 + n] else Digits(n / 10) + [48 + n % 10] }

  function PrintNumber(n: int): Bytes { if n < 0 then [MINUS] + Digits(-n) else Digits(n) }

  function Tabs(n: nat): (r: Bytes)
    ensures |r| == n && forall i | 0 <= i < n :: r[i] == TAB
  { seq(n, _ => TAB) }

  /** `s` in formatted output, nothing otherwise. */
  function Only(fmt: bool, s: Bytes): Bytes { if fmt then s else [] }

  function PrintValue(v: Json, depth: nat, fmt: bool): Bytes
    decreases v
  {
    match v
    case Null => NULL_TEXT
    case False => FALSE_TEXT
    case True => TRUE_TEXT
    case Number(n) => PrintNumber(n)
    case Str(s) => PrintString(s)
    case Arr(elems) => [OPEN] + PrintElems(elems, depth + 1, fmt) + [CLOSE]
    case Obj(members) =>
      [OPEN_OBJ] + Only(fmt, [NEWLINE]) + PrintMembers(members, depth + 1, fmt) + Only(fmt, Tabs(depth)) + [CLOSE_OBJ]
  }

  function PrintElems(elems: seq<Json>, depth: nat, fmt: bool): Bytes
    decreases elems
  {
    if elems == [] then []
    else PrintValue(elems[0], depth, fmt) + ElemEnd(|elems| == 1, fmt) + PrintElems(elems[1..], depth, fmt)
  }

  function ElemEnd(last: bool, fmt: bool): Bytes { if last then [] else [COMMA] + Only(fmt, [SPACE]) }

  function PrintMembers(members: seq<Member>, depth: nat, fmt: bool): Bytes
    decreases members
  {
    if members == [] then []
    else
      MemberStart(members[0].name, depth, fmt) + PrintValue(members[0].value, depth, fmt)
      + MemberEnd(|members| == 1, fmt) + PrintMembers(members[1..], depth, fmt)
  }

  function MemberStart(name: CString, depth: nat, fmt: bool): Bytes {
    Only(fmt, Tabs(depth)) + PrintString(name) + [COLON] + Only(fmt, [TAB])
  }

  function MemberEnd(last: bool, fmt: bool): Bytes { (if last then [] else [COMMA]) + Only(fmt, [NEWLINE]) }

  // ----------------------------------------------------------------------------------------
  // Parsing

  /** Outside: reading past the end of the text, a NUL in an escape, a \u escape, a fraction or an
      exponent, or a number beyond 32 bits.  Fail: the parser returns 0. */
  datatype Result<+T> = Ok(value: T, rest: Bytes) | Fail | Outside

  function Skip(s: Bytes): (r: Bytes)
    ensures |r| <= |s|
  { if s != [] && s[0] <= 32 then Skip(s[1..]) else s }

  predicate IsDigit(c: Byte) { 48 <= c <= 57 }

  function ScanDigits(s: Bytes, acc: nat): (r: (nat, Bytes))
    ensures |r.1| <= |s|
  { if s != [] && IsDigit(s[0]) then ScanDigits(s[1..], 10 * acc + (s[0] - 48)) else (acc, s) }

  function ParseNumber(s: Bytes): (r: Result<Json>)
    ensures r.Ok? && s != [] && (s[0] == MINUS || IsDigit(s[0])) ==> |r.rest| < |s|
  {
    var neg := s != [] && s[0] == MINUS;
    var s1 := if neg then s[1..] else s;
    var s2 := if s1 != [] && s1[0] == 48 then s1[1..] else s1;
    var (n, s3) := if s2 != [] && 49 <= s2[0] <= 57 then ScanDigits(s2, 0) else (0, s2);
    var value := if neg then -(n as int) else n;
    if s3 == [] || s3[0] == 46 || s3[0] == 69 || s3[0] == 101 || !(-0x8000_0000 <= value < 0x8000_0000) then Outside
    else Ok(Number(value), s3)
  }

  /** What an escape's letter stands for; any other letter stands for itself. */
  function Unescape(c: Byte): Byte {
    if c == 98 then 8 else if c == 102 then 12 else if c == 110 then 10 else if c == 114 then 13
    else if c == 116 then 9 else c
  }

  /** The characters up to the closing quote, or up to a control byte, which is not consumed. */
  function ParseChars(s: Bytes): (r: Result<CString>)
    ensures r.Ok? ==> |r.rest| <= |s|
  {
    if s == [] then Outside
    else if s[0] == QUOTE then Ok([], s[1..])
    else if s[0] <= 31 then Ok([], s)
    else if s[0] != BACKSLASH then Prefix(s[0], ParseChars(s[1..]))
    else if |s| < 2 || s[1] == 0 || s[1] == 117 then Outside
    else Prefix(Unescape(s[1]), ParseChars(s[2..]))
  }

  function Prefix(c: Byte, r: Result<CString>): Result<CString>
    requires c != 0
  { match r case Ok(value, rest) => Ok([c] + value, rest) case Fail => Fail case Outside => Outside }

  function ParseString(s: Bytes): (r: Result<CString>)
    ensures r.Ok? ==> |r.rest| < |s|
  { if s == [] then Outside else if s[0] != QUOTE then Fail else ParseChars(s[1..]) }

  function ParseValue(s: Bytes): (r: Result<Json>)
    ensures r.Ok? ==> |r.rest| < |s|
    decreases |s|, 0
  {
    if s == [] then Outside
    else if NULL_TEXT <= s then Ok(Null, s[4..])
    else if FALSE_TEXT <= s then Ok(False, s[5..])
    else if TRUE_TEXT <= s then Ok(True, s[4..])
    else if s[0] == QUOTE then
      match ParseString(s) case Ok(str, rest) => Ok(Str(str), rest) case Fail => Fail case Outside => Outside
    else if s[0] == MINUS || IsDigit(s[0]) then ParseNumber(s)
    else if s[0] == OPEN then
      var s' := Skip(s[1..]);
      if s' == [] then Outside
      else if s'[0] == CLOSE then Ok(Arr([]), s'[1..])
      else match ParseElems(s') case Ok(es, rest) => Ok(Arr(es), rest) case Fail => Fail case Outside => Outside
    else if s[0] == OPEN_OBJ then
      var s' := Skip(s[1..]);
      if s' == [] then Outside
      else if s'[0] == CLOSE_OBJ then Ok(Obj([]), s'[1..])
      else match ParseMembers(s') case Ok(ms, rest) => Ok(Obj(ms), rest) case Fail => Fail case Outside => Outside
    else Fail
  }

  /** One element and, after a comma, the others, up to the closing bracket. */
  function ParseElems(s: Bytes): (r: Result<seq<Json>>)
    ensures r.Ok? ==> |r.rest| < |s|
    decreases |s|, 2
  {
    match ParseElem(s)
    case Fail => Fail
    case Outside => Outside
    case Ok(v, t) =>
      if t == [] then Outside
      else if t[0] == COMMA then PrependElem(v, ParseElems(t[1..]))
      else if t[0] == CLOSE then Ok([v], t[1..]) else Fail
  }

  /** A value with the blanks around it. */
  function ParseElem(s: Bytes): (r: Result<Json>)
    ensures r.Ok? ==> |r.rest| < |s|
    decreases |s|, 1
  {
    match ParseValue(Skip(s)) case Fail => Fail case Outside => Outside case Ok(v, rest) => Ok(v, Skip(rest))
  }

  function PrependElem(v: Json, r: Result<seq<Json>>): Result<seq<Json>> {
    match r case Ok(vs, rest) => Ok([v] + vs, rest) case Fail => Fail case Outside => Outside
  }

  function ParseMembers(s: Bytes): (r: Result<seq<Member>>)
    ensures r.Ok? ==> |r.rest| < |s|
    decreases |s|, 1
  {
    match ParseMember(s)
    case Fail => Fail
    case Outside => Outside
    case Ok(m, t) =>
      if t == [] then Outside
      else if t[0] == COMMA then PrependMember(m, ParseMembers(t[1..]))
      else if t[0] == CLOSE_OBJ then Ok([m], t[1..]) else Fail
  }

  function PrependMember(m: Member, r: Result<seq<Member>>): Result<seq<Member>> {
    match r case Ok(ms, rest) => Ok([m] + ms, rest) case Fail => Fail case Outside => Outside
  }

  /** A name and a colon, with the blanks around them. */
  function ParseName(s: Bytes): (r: Result<CString>)
    ensures r.Ok? ==> |r.rest| < |s|
  {
    match ParseString(Skip(s))
    case Fail => Fail
    case Outside => Outside
    case Ok(name, rest) =>
      var t := Skip(rest);
      if t == [] then Outside
      else if t[0] != COLON then Fail
      else Ok(name, Skip(t[1..]))
  }

  /** A name, a colon and a value, with the blanks around them. */
  function ParseMember(s: Bytes): (r: Result<Member>)
    ensures r.Ok? ==> |r.rest| < |s|
    decreases |s|, 0
  {
    match ParseName(s)
    case Fail => Fail
    case Outside => Outside
    case Ok(name, rest) =>
      match ParseValue(rest)
      case Fail => Fail
      case Outside => Outside
      case Ok(v, rest') => Ok(Member(name, v), Skip(rest'))
  }

  /** cJSON_Parse of a text that a NUL ends. */
  function Parse(text: Bytes): Result<Json> { ParseValue(Skip(text + [0])) }
}
