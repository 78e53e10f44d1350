/** The parse functions of moxi/cJSON.c as loops over a text, with a position for each pointer. */
module CJsonParse {
  import opened CJson

  /** `Off` is a read past the end of the text, or a text that CJson.Result calls Outside. */
  datatype Parsed<+T> = Got(value: T, pos: nat) | Failed | Off

  /** The result of a parse from some position, as the suffix functions give it. */
  ghost predicate Agrees<T>(p: Parsed<T>, text: Bytes, r: Result<T>) {
    match p
    case Got(v, pos) => pos <= |text| && r == Ok(v, text[pos..])
    case Failed => r == Fail
    case Off => r == Outside
  }

  method SkipBlanks(text: Bytes, start: nat) returns (pos: nat)
    requires start <= |text|
    ensures start <= pos <= |text| && text[pos..] == Skip(text[start..])
    ensures pos < |text| ==> text[pos] > 32
  {
    pos := start;
    while pos < |text| && text[pos] <= 32
      invariant start <= pos <= |text|
      invariant Skip(text[pos..]) == Skip(text[start..])
    {
      assert text[pos..][1..] == text[pos + 1..];
      pos := pos + 1;
    }
  }

  // ----------------------------------------------------------------------------------------
  // Strings

  /** What the first pass of parse_string counts. */
  function RawLength(s: Bytes): nat {
    if s == [] || s[0] == QUOTE || s[0] <= 31 then 0
    else if s[0] != BACKSLASH then 1 + RawLength(s[1..])
    else if |s| < 2 then 1 else 1 + RawLength(s[2..])
  }

  /** The first pass: the length, or None after running off the text. */
  method MeasureString(text: Bytes, start: nat) returns (ok: bool, len: nat)
    requires start <= |text|
    ensures ok ==> len == RawLength(text[start..])
    ensures !ok ==> ParseChars(text[start..]) == Outside
  {
    var pos := start;
    len := 0;
    while pos < |text| && text[pos] != QUOTE && text[pos] > 31
      invariant start <= pos <= |text|
      invariant len + RawLength(text[pos..]) == RawLength(text[start..])
      invariant ParseChars(text[pos..]) == Outside ==> ParseChars(text[start..]) == Outside
    {
      assert text[pos..][1..] == text[pos + 1..];
      len := len + 1;
      if text[pos] == BACKSLASH {
        if pos + 1 == |text| { return false, len; }
        assert text[pos..][2..] == text[pos + 2..];
        pos := pos + 1;
      }
      pos := pos + 1;
    }
    ok := pos < |text|;
  }

  function PrefixAll(cs: CString, r: Result<CString>): (all: Result<CString>)
    ensures cs == [] ==> all == r
  {
    match r
    case Ok(value, rest) => assert [] + value == value; Ok(cs + value, rest)
    case Fail => Fail
    case Outside => Outside
  }

  // Moving one decoded byte from what is still to be parsed to what is done.
  lemma PrefixStep(cs: CString, c: Byte, r: Result<CString>)
    requires c != 0
    ensures PrefixAll(cs, Prefix(c, r)) == PrefixAll(cs + [c], r)
  {
    if r.Ok? { assert cs + ([c] + r.value) == (cs + [c]) + r.value; }
  }

  method ParseStringText(text: Bytes, start: nat) returns (p: Parsed<CString>)
    requires start <= |text|
    ensures Agrees(p, text, ParseString(text[start..]))
  {
    if start == |text| { return Off; }
    if text[start] != QUOTE { return Failed; }
    assert text[start..][1..] == text[start + 1..];
    var ok, len := MeasureString(text, start + 1);
    if !ok { return Off; }
    p := FillString(text, start + 1, len);
  }

  /** The second pass, into a buffer of the measured length and one more for the NUL. */
  method FillString(text: Bytes, start: nat, len: nat) returns (p: Parsed<CString>)
    requires start <= |text| && len == RawLength(text[start..])
    ensures Agrees(p, text, ParseChars(text[start..]))
  {
    var out := new Byte[len + 1];
    var o, pos := 0, start;
    while pos < |text| && text[pos] != QUOTE && text[pos] > 31
      invariant start <= pos <= |text|
      invariant o + RawLength(text[pos..]) == len && 0 !in out[..o]
      invariant PrefixAll(out[..o], ParseChars(text[pos..])) == ParseChars(text[start..])
    {
      ghost var done: CString := out[..o];
      assert text[pos..][1..] == text[pos + 1..];
      if text[pos] != BACKSLASH {
        PrefixStep(done, text[pos], ParseChars(text[pos + 1..]));
        out[o] := text[pos];
      } else {
        pos := pos + 1;
        if pos == |text| || text[pos] == 0 || text[pos] == 117 { return Off; }
        assert text[pos - 1..][2..] == text[pos + 1..];
        PrefixStep(done, Unescape(text[pos]), ParseChars(text[pos + 1..]));
        out[o] := Unescape(text[pos]);
      }
      o := o + 1;
      pos := pos + 1;
      assert out[..o] == done + [out[o - 1]];
    }
    if pos == |text| { return Off; }
    out[o] := 0;
    if text[pos] == QUOTE {
      assert text[pos..][1..] == text[pos + 1..];
      pos := pos + 1;
    }
    assert out[..o] + [] == out[..o];
    return Got(out[..o], pos);
  }

  // ----------------------------------------------------------------------------------------
  // Numbers

  /** The loop over the integer part. */
  method ScanDigitsText(text: Bytes, start: nat) returns (n: nat, pos: nat)
    requires start <= |text|
    ensures start <= pos <= |text| && ScanDigits(text[start..], 0) == (n, text[pos..])
  {
    n, pos := 0, start;
    while pos < |text| && IsDigit(text[pos])
      invariant start <= pos <= |text|
      invariant ScanDigits(text[pos..], n) == ScanDigits(text[start..], 0)
    {
      assert text[pos..][1..] == text[pos + 1..];
      n := 10 * n + (text[pos] - 48);
      pos := pos + 1;
    }
  }

  method ParseNumberText(text: Bytes, start: nat) returns (p: Parsed<Json>)
    requires start <= |text|
    ensures Agrees(p, text, ParseNumber(text[start..]))
  {
    var pos, neg := start, false;
    if pos < |text| && text[pos] == MINUS {
      assert text[pos..][1..] == text[pos + 1..];
      neg, pos := true, pos + 1;
    }
    if pos < |text| && text[pos] == 48 {
      assert text[pos..][1..] == text[pos + 1..];
      pos := pos + 1;
    }
    var n: nat := 0;
    if pos < |text| && 49 <= text[pos] <= 57 { n, pos := ScanDigitsText(text, pos); }
    var value := if neg then -(n as int) else n;
    if pos == |text| || text[pos] == 46 || text[pos] == 69 || text[pos] == 101 { return Off; }
    if !(-0x8000_0000 <= value < 0x8000_0000) { return Off; }
    return Got(Number(value), pos);
  }

  // ----------------------------------------------------------------------------------------
  // Values, arrays and objects

  method ParseJson(text: Bytes, start: nat) returns (p: Parsed<Json>)
    requires start <= |text|
    ensures Agrees(p, text, ParseValue(text[start..]))
    ensures p.Got? ==> p.pos > start
    decreases |text| - start, 1
  {
    if start == |text| { return Off; }
    if NULL_TEXT <= text[start..] { return Got(Null, start + 4); }
    if FALSE_TEXT <= text[start..] { return Got(False, start + 5); }
    if TRUE_TEXT <= text[start..] { return Got(True, start + 4); }
    if text[start] == QUOTE {
      var s := ParseStringText(text, start);
      match s {
        case Got(str, pos) => return Got(Str(str), pos);
        case Failed => return Failed;
        case Off => return Off;
      }
    }
    if text[start] == MINUS || IsDigit(text[start]) {
      p := ParseNumberText(text, start);
      return;
    }
    if text[start] == OPEN {
      p := ParseArray(text, start);
      return;
    }
    if text[start] == OPEN_OBJ {
      p := ParseObject(text, start);
      return;
    }
    return Failed;
  }

  function PrependElems(done: seq<Json>, r: Result<seq<Json>>): (all: Result<seq<Json>>)
    ensures done == [] ==> all == r
  {
    match r
    case Ok(vs, rest) => assert [] + vs == vs; Ok(done + vs, rest)
    case Fail => Fail
    case Outside => Outside
  }

  lemma PrependElemsStep(done: seq<Json>, v: Json, r: Result<seq<Json>>)
    ensures PrependElems(done, PrependElem(v, r)) == PrependElems(done + [v], r)
  {
    if r.Ok? { assert done + ([v] + r.value) == (done + [v]) + r.value; }
  }

  method ParseArray(text: Bytes, start: nat) returns (p: Parsed<Json>)
    requires start < |text| && text[start] == OPEN
    ensures Agrees(p, text, ParseValue(text[start..]))
    ensures p.Got? ==> p.pos > start
    decreases |text| - start, 0
  {
    assert text[start..][1..] == text[start + 1..];
    var pos := SkipBlanks(text, start + 1);
    if pos == |text| { return Off; }
    if text[pos] == CLOSE {
      assert text[pos..][1..] == text[pos + 1..];
      return Got(Arr([]), pos + 1);
    }
    var elems := ParseElements(text, pos);
    match elems {
      case Got(es, end) => return Got(Arr(es), end);
      case Failed => return Failed;
      case Off => return Off;
    }
  }

  /** The loop of parse_array, from the first element on. */
  method ParseElements(text: Bytes, start: nat) returns (p: Parsed<seq<Json>>)
    requires start <= |text|
    ensures Agrees(p, text, ParseElems(text[start..]))
    ensures p.Got? ==> p.pos > start
    decreases |text| - start, 3
  {
    var done: seq<Json>, pos := [], start;
    while true
      invariant start <= pos <= |text|
      invariant PrependElems(done, ParseElems(text[pos..])) == ParseElems(text[start..])
      decreases |text| - pos
    {
      var v := ParseElement(text, pos);
      if v.Failed? { return Failed; }
      if v.Off? { return Off; }
      var next := v.pos;
      if next == |text| { return Off; }
      assert text[next..][1..] == text[next + 1..];
      if text[next] != COMMA {
        if text[next] != CLOSE { return Failed; }
        return Got(done + [v.value], next + 1);
      }
      PrependElemsStep(done, v.value, ParseElems(text[next + 1..]));
      done, pos := done + [v.value], next + 1;
    }
  }

  method ParseElement(text: Bytes, start: nat) returns (p: Parsed<Json>)
    requires start <= |text|
    ensures Agrees(p, text, ParseElem(text[start..]))
    ensures p.Got? ==> p.pos > start
    decreases |text| - start, 2
  {
    var at := SkipBlanks(text, start);
    p := ParseJson(text, at);
    if p.Got? {
      var next := SkipBlanks(text, p.pos);
      p := Got(p.value, next);
    }
  }

  function PrependMembers(done: seq<Member>, r: Result<seq<Member>>): (all: Result<seq<Member>>)
    ensures done == [] ==> all == r
  {
    match r
    case Ok(ms, rest) => assert [] + ms == ms; Ok(done + ms, rest)
    case Fail => Fail
    case Outside => Outside
  }

  lemma PrependMembersStep(done: seq<Member>, m: Member, r: Result<seq<Member>>)
    ensures PrependMembers(done, PrependMember(m, r)) == PrependMembers(done + [m], r)
  {
    if r.Ok? { assert done + ([m] + r.value) == (done + [m]) + r.value; }
  }

  // What the loop of parse_object makes of the next member.
  lemma MembersStep(text: Bytes, done: seq<Member>, pos: nat, p: Parsed<Member>)
    requires pos <= |text| && Agrees(p, text, ParseMember(text[pos..]))
    ensures var all := PrependMembers(done, ParseMembers(text[pos..]));
      match p
      case Got(m, next) =>
        if next == |text| then all == Outside
        else if text[next] == COMMA then all == PrependMembers(done + [m], ParseMembers(text[next + 1..]))
        else all == if text[next] == CLOSE_OBJ then Ok(done + [m], text[next + 1..]) else Fail
      case Failed => all == Fail
      case Off => all == Outside
  {
    if p.Got? && p.pos < |text| {
      assert text[p.pos..][1..] == text[p.pos + 1..];
      if text[p.pos] == COMMA { PrependMembersStep(done, p.value, ParseMembers(text[p.pos + 1..])); }
    }
  }

  method ParseObject(text: Bytes, start: nat) returns (p: Parsed<Json>)
    requires start < |text| && text[start] == OPEN_OBJ
    ensures Agrees(p, text, ParseValue(text[start..]))
    ensures p.Got? ==> p.pos > start
    decreases |text| - start, 0
  {
    assert text[start..][1..] == text[start + 1..];
    var pos := SkipBlanks(text, start + 1);
    if pos == |text| { return Off; }
    if text[pos] == CLOSE_OBJ {
      assert text[pos..][1..] == text[pos + 1..];
      return Got(Obj([]), pos + 1);
    }
    var members := ParseEntries(text, pos);
    match members {
      case Got(ms, end) => return Got(Obj(ms), end);
      case Failed => return Failed;
      case Off => return Off;
    }
  }

  /** The loop of parse_object, from the first name on. */
  method ParseEntries(text: Bytes, start: nat) returns (p: Parsed<seq<Member>>)
    requires start <= |text|
    ensures Agrees(p, text, ParseMembers(text[start..]))
    ensures p.Got? ==> p.pos > start
    decreases |text| - start, 3
  {
    var done: seq<Member>, pos := [], start;
    while true
      invariant start <= pos <= |text|
      invariant PrependMembers(done, ParseMembers(text[pos..])) == ParseMembers(text[start..])
      decreases |text| - pos
    {
      var m := ParseEntry(text, pos);
      MembersStep(text, done, pos, m);
      if m.Failed? { return Failed; }
      if m.Off? || m.pos == |text| { return Off; }
      done, pos := done + [m.value], m.pos + 1;
      if text[pos - 1] == CLOSE_OBJ { return Got(done, pos); }
      if text[pos - 1] != COMMA { return Failed; }
    }
  }

  method ParseEntryName(text: Bytes, start: nat) returns (p: Parsed<CString>)
    requires start <= |text|
    ensures Agrees(p, text, ParseName(text[start..]))
  {
    var pos := SkipBlanks(text, start);
    p := ParseStringText(text, pos);
    if !p.Got? { return; }
    pos := SkipBlanks(text, p.pos);
    if pos == |text| { return Off; }
    if text[pos] != COLON { return Failed; }
    assert text[pos..][1..] == text[pos + 1..];
    pos := SkipBlanks(text, pos + 1);
    return Got(p.value, pos);
  }

  method ParseEntry(text: Bytes, start: nat) returns (p: Parsed<Member>)
    requires start <= |text|
    ensures Agrees(p, text, ParseMember(text[start..]))
    ensures p.Got? ==> p.pos > start
    decreases |text| - start, 2
  {
    var name := ParseEntryName(text, start);
    if name.Failed? { return Failed; }
    if name.Off? { return Off; }
    var v := ParseJson(text, name.pos);
    if v.Failed? { return Failed; }
    if v.Off? { return Off; }
    var pos := SkipBlanks(text, v.pos);
    return Got(Member(name.value, v.value), pos);
  }

  /** cJSON_Parse; the text is followed by its NUL. */
  method ParseText(content: CString) returns (p: Parsed<Json>)
    ensures Agrees(p, content + [0], Parse(content))
  {
    var start := SkipBlanks(content + [0], 0);
    assert (content + [0])[0..] == content + [0];
    p := ParseJson(content + [0], start);
  }
}
