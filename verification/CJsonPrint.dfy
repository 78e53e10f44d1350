/** The print functions of moxi/cJSON.c with the buffers they allocate and fill. */
module CJsonPrint {
  import opened CJson

  // ----------------------------------------------------------------------------------------
  // What the first passes compute

  /** The bytes that print_string_ptr counts for the characters. */
  function CharsNeed(s: Bytes): nat {
    if s == [] then 0 else (if s[0] < 32 || s[0] == QUOTE || s[0] == BACKSLASH then 2 else 1) + CharsNeed(s[1..])
  }

  function FmtOne(fmt: bool): nat { if fmt then 1 else 0 }

  function ElemsNeed(elems: seq<Json>, depth: nat, fmt: bool): nat {
    if elems == [] then 0
    else |PrintValue(elems[0], depth, fmt)| + 2 + FmtOne(fmt) + ElemsNeed(elems[1..], depth, fmt)
  }

  function MemberNeed(m: Member, depth: nat, fmt: bool): nat {
    |PrintValue(m.value, depth, fmt)| + |PrintString(m.name)| + 2 + if fmt then 2 + depth else 0
  }

  function MembersNeed(members: seq<Member>, depth: nat, fmt: bool): nat {
    if members == [] then 0 else MemberNeed(members[0], depth, fmt) + MembersNeed(members[1..], depth, fmt)
  }

  /** The size of the buffer that holds a printed value and its NUL. */
  function Capacity(v: Json, depth: nat, fmt: bool): nat {
    match v
    case Null => 5
    case False => 6
    case True => 5
    case Number(_) => 21
    case Str(s) => CharsNeed(s) + 3
    case Arr(elems) => 5 + ElemsNeed(elems, depth + 1, fmt)
    case Obj(members) => 7 + (if fmt then depth + 1 else 0) + MembersNeed(members, depth + 1, fmt)
  }

  lemma {:induction false} CharsFit(s: Bytes)
    ensures |PrintBytes(s)| <= CharsNeed(s)
  {
    if s != [] { CharsFit(s[1..]); }
  }

  lemma {:induction false} ElemsFit(elems: seq<Json>, depth: nat, fmt: bool)
    ensures |PrintElems(elems, depth, fmt)| <= ElemsNeed(elems, depth, fmt)
  {
    if elems != [] { ElemsFit(elems[1..], depth, fmt); }
  }

  lemma {:induction false} MembersFit(members: seq<Member>, depth: nat, fmt: bool)
    ensures |PrintMembers(members, depth, fmt)| <= MembersNeed(members, depth, fmt)
  {
    if members != [] { MembersFit(members[1..], depth, fmt); }
  }

  lemma {:induction false} DigitsFit(n: nat, k: nat, bound: nat)
    requires k > 0 && n < bound && bound == Power10(k)
    ensures |Digits(n)| <= k
  {
    if n >= 10 { DigitsFit(n / 10, k - 1, Power10(k - 1)); }
  }

  function Power10(k: nat): nat { if k == 0 then 1 else 10 * Power10(k - 1) }

  lemma NumberFits(n: Int32)
    ensures |PrintNumber(n)| <= 11
  {
    assert Power10(5) == 100_000;
    assert Power10(10) == 10_000_000_000;
    DigitsFit(if n < 0 then -(n as int) else n, 10, 10_000_000_000);
  }

  /** The computed size always suffices for the printed value and its terminator. */
  lemma BufferSuffices(v: Json, depth: nat, fmt: bool)
    ensures |PrintValue(v, depth, fmt)| + 1 <= Capacity(v, depth, fmt)
  {
    match v {
      case Number(n) => NumberFits(n);
      case Str(s) => CharsFit(s);
      case Arr(elems) => ElemsFit(elems, depth + 1, fmt);
      case Obj(members) => MembersFit(members, depth + 1, fmt);
      case _ =>
    }
  }

  // ----------------------------------------------------------------------------------------
  // Printed text holds no NUL, so strlen and strcpy see all of it

  lemma {:induction false} CharsNoNul(s: CString)
    ensures 0 !in PrintBytes(s)
  {
    if s != [] { CharsNoNul(s[1..]); }
  }

  lemma {:induction false} DigitsNoNul(n: nat)
    ensures 0 !in Digits(n)
  {
    if n >= 10 { DigitsNoNul(n / 10); }
  }

  lemma {:induction false} ValueNoNul(v: Json, depth: nat, fmt: bool)
    ensures 0 !in PrintValue(v, depth, fmt)
    decreases v
  {
    match v {
      case Number(n) => DigitsNoNul(if n < 0 then -(n as int) else n);
      case Str(s) => CharsNoNul(s);
      case Arr(elems) => ElemsNoNul(elems, depth + 1, fmt);
      case Obj(members) => MembersNoNul(members, depth + 1, fmt);
      case _ =>
    }
  }

  lemma {:induction false} ElemsNoNul(elems: seq<Json>, depth: nat, fmt: bool)
    ensures 0 !in PrintElems(elems, depth, fmt)
    decreases elems
  {
    if elems != [] {
      ValueNoNul(elems[0], depth, fmt);
      ElemsNoNul(elems[1..], depth, fmt);
    }
  }

  lemma {:induction false} MembersNoNul(members: seq<Member>, depth: nat, fmt: bool)
    ensures 0 !in PrintMembers(members, depth, fmt)
    decreases members
  {
    if members != [] {
      CharsNoNul(members[0].name);
      ValueNoNul(members[0].value, depth, fmt);
      MembersNoNul(members[1..], depth, fmt);
    }
  }

  // ----------------------------------------------------------------------------------------
  // The methods; a returned C string is given by its contents

  method StringCopy(out: array<Byte>, p: nat, s: CString)
    requires p + |s| < out.Length
    modifies out
    ensures out[..p + |s|] == old(out[..p]) + s && out[p + |s|] == 0
  {
    var i := 0;
    while i < |s|
      invariant 0 <= i <= |s|
      invariant out[..p + i] == old(out[..p]) + s[..i]
    {
      out[p + i] := s[i];
      i := i + 1;
    }
    out[p + |s|] := 0;
  }

  method PrintStringPtr(s: CString) returns (text: CString)
    ensures text == PrintString(s)
  {
    CharsNoNul(s);
    var len, i := 0, 0;
    while i < |s|
      invariant 0 <= i <= |s|
      invariant len + CharsNeed(s[i..]) == CharsNeed(s)
    {
      len := len + 1;
      if s[i] < 32 || s[i] == QUOTE || s[i] == BACKSLASH { len := len + 1; }
      i := i + 1;
    }
    var out := new Byte[len + 3];
    var p := PutChars(out, s);
    out[p], out[p + 1] := QUOTE, 0;
    assert out[..p + 1] == PrintString(s);
    text := out[..p + 1];
  }

  /** The opening quote and the loop that escapes a string. */
  method PutChars(out: array<Byte>, s: CString) returns (p: nat)
    requires out.Length == CharsNeed(s) + 3
    modifies out
    ensures p + 1 < out.Length && out[..p] == [QUOTE] + PrintBytes(s)
  {
    out[0] := QUOTE;
    p := 1;
    var i := 0;
    while i < |s|
      invariant 0 <= i <= |s| && 1 <= p && p + CharsNeed(s[i..]) + 2 <= out.Length
      invariant out[..p] + PrintBytes(s[i..]) == [QUOTE] + PrintBytes(s)
    {
      assert s[i..][1..] == s[i + 1..];
      p := PutChar(out, p, s[i]);
      i := i + 1;
    }
  }

  /** One round of the loop that escapes a string. */
  method PutChar(out: array<Byte>, p: nat, c: Byte) returns (p': nat)
    requires p + 2 < out.Length
    modifies out
    ensures p' == p + |PrintByte(c)| <= out.Length
    ensures out[..p'] == old(out[..p]) + PrintByte(c)
  {
    p' := p;
    if c > 31 && c != QUOTE && c != BACKSLASH {
      out[p'] := c;
      p' := p' + 1;
    } else {
      out[p'] := BACKSLASH;
      p' := p' + 1;
      if Escaped(c) {
        out[p'] := Letter(c);
        p' := p' + 1;
      } else {
        p' := p' - 1;
      }
    }
  }

  method PrintNumberText(n: Int32) returns (text: CString)
    ensures text == PrintNumber(n)
  {
    NumberFits(n);
    DigitsNoNul(if n < 0 then -(n as int) else n);
    var out := new Byte[21];
    StringCopy(out, 0, PrintNumber(n));
    text := out[..|PrintNumber(n)|];
  }

  method PrintJson(v: Json, depth: nat, fmt: bool) returns (text: CString)
    ensures text == PrintValue(v, depth, fmt)
    decreases v, 1
  {
    match v {
      case Null => text := NULL_TEXT;
      case False => text := FALSE_TEXT;
      case True => text := TRUE_TEXT;
      case Number(n) => text := PrintNumberText(n);
      case Str(s) => text := PrintStringPtr(s);
      case Arr(elems) => text := PrintArray(elems, depth, fmt);
      case Obj(members) => text := PrintObject(members, depth, fmt);
    }
  }

  /** The first pass of print_array: the printed elements and the length. */
  method CollectElems(elems: seq<Json>, depth: nat, fmt: bool) returns (entries: array<CString>, len: nat)
    ensures entries.Length == |elems| && fresh(entries)
    ensures forall j | 0 <= j < |elems| :: entries[j] == PrintValue(elems[j], depth, fmt)
    ensures len == 5 + ElemsNeed(elems, depth, fmt)
    decreases elems, 1
  {
    entries := new CString[|elems|](_ => []);
    len := 5;
    var i := 0;
    while i < |elems|
      invariant 0 <= i <= |elems|
      invariant forall j | 0 <= j < i :: entries[j] == PrintValue(elems[j], depth, fmt)
      invariant len + ElemsNeed(elems[i..], depth, fmt) == 5 + ElemsNeed(elems, depth, fmt)
    {
      var ret := PrintJson(elems[i], depth, fmt);
      assert elems[i..][1..] == elems[i + 1..];
      entries[i] := ret;
      len := len + |ret| + 2 + FmtOne(fmt);
      i := i + 1;
    }
  }

  method PrintArray(elems: seq<Json>, depth: nat, fmt: bool) returns (text: CString)
    ensures text == PrintValue(Arr(elems), depth, fmt)
    decreases elems, 2
  {
    var entries, len := CollectElems(elems, depth + 1, fmt);
    var out := new Byte[len];
    var p := PutElems(out, entries, elems, depth + 1, fmt);
    out[p], out[p + 1] := CLOSE, 0;
    assert out[..p + 1] == PrintValue(Arr(elems), depth, fmt);
    ValueNoNul(Arr(elems), depth, fmt);
    text := out[..p + 1];
  }

  // Printing one element moves it from what is still to be printed to what is done.
  lemma PrintElemsStep(done: Bytes, elems: seq<Json>, i: nat, depth: nat, fmt: bool)
    requires i < |elems|
    ensures ElemsNeed(elems[i..], depth, fmt)
         == |PrintValue(elems[i], depth, fmt)| + 2 + FmtOne(fmt) + ElemsNeed(elems[i + 1..], depth, fmt)
    ensures done + PrintElems(elems[i..], depth, fmt)
         == done + (PrintValue(elems[i], depth, fmt) + ElemEnd(i == |elems| - 1, fmt))
            + PrintElems(elems[i + 1..], depth, fmt)
  {
    assert elems[i..][1..] == elems[i + 1..];
  }

  /** The loop that composes an array in its buffer. */
  method PutElems(out: array<Byte>, entries: array<CString>, ghost elems: seq<Json>, ghost depth: nat, fmt: bool)
    returns (p: nat)
    requires entries.Length == |elems| && out.Length == 5 + ElemsNeed(elems, depth, fmt)
    requires forall j | 0 <= j < |elems| :: entries[j] == PrintValue(elems[j], depth, fmt)
    modifies out
    ensures p + 1 < out.Length && out[..p] == [OPEN] + PrintElems(elems, depth, fmt)
  {
    out[0] := OPEN;
    p := 1;
    out[p] := 0;
    var i := 0;
    while i < entries.Length
      invariant 0 <= i <= |elems| && 1 <= p && p + 4 + ElemsNeed(elems[i..], depth, fmt) <= out.Length
      invariant out[..p] + PrintElems(elems[i..], depth, fmt) == [OPEN] + PrintElems(elems, depth, fmt)
    {
      PrintElemsStep(out[..p], elems, i, depth, fmt);
      p := PutElem(out, p, entries[i], i == entries.Length - 1, fmt);
      i := i + 1;
    }
    assert elems[i..] == [];
  }

  /** One round of the loop that composes an array. */
  method PutElem(out: array<Byte>, p: nat, entry: CString, last: bool, fmt: bool) returns (p': nat)
    requires p + |entry| + 3 < out.Length
    modifies out
    ensures p' == p + |entry| + |ElemEnd(last, fmt)| && p' < out.Length
    ensures out[..p'] == old(out[..p]) + (entry + ElemEnd(last, fmt))
  {
    StringCopy(out, p, entry);
    p' := p + |entry|;
    if !last {
      out[p'] := COMMA;
      p' := p' + 1;
      if fmt {
        out[p'] := SPACE;
        p' := p' + 1;
      }
      out[p'] := 0;
    }
  }

  method PutTabs(out: array<Byte>, p: nat, n: nat) returns (p': nat)
    requires p + n <= out.Length
    modifies out
    ensures p' == p + n && out[..p'] == old(out[..p]) + Tabs(n)
  {
    p' := p;
    while p' < p + n
      invariant p <= p' <= p + n
      invariant out[..p'] == old(out[..p]) + Tabs(p' - p)
    {
      out[p'] := TAB;
      p' := p' + 1;
    }
  }

  /** The printed name and value of a member and the length they add. */
  method PrintMember(m: Member, d: nat, fmt: bool) returns (str: CString, ret: CString, more: nat)
    ensures str == PrintString(m.name) && ret == PrintValue(m.value, d, fmt) && more == MemberNeed(m, d, fmt)
    decreases m, 2
  {
    str := PrintStringPtr(m.name);
    ret := PrintJson(m.value, d, fmt);
    more := |ret| + |str| + 2 + if fmt then 2 + d else 0;
  }

  /** The first pass of print_object. */
  method CollectMembers(members: seq<Member>, d: nat, fmt: bool)
    returns (names: array<CString>, entries: array<CString>, len: nat)
    ensures names.Length == entries.Length == |members| && fresh(names) && fresh(entries)
    ensures forall j | 0 <= j < |members| :: names[j] == PrintString(members[j].name)
    ensures forall j | 0 <= j < |members| :: entries[j] == PrintValue(members[j].value, d, fmt)
    ensures len == 7 + (if fmt then d else 0) + MembersNeed(members, d, fmt)
    decreases members, 1
  {
    names := new CString[|members|](_ => []);
    entries := new CString[|members|](_ => []);
    len := 7 + if fmt then d else 0;
    ghost var start := len;
    var i := 0;
    while i < |members|
      invariant 0 <= i <= |members|
      invariant forall j | 0 <= j < i :: names[j] == PrintString(members[j].name)
      invariant forall j | 0 <= j < i :: entries[j] == PrintValue(members[j].value, d, fmt)
      invariant len + MembersNeed(members[i..], d, fmt) == start + MembersNeed(members, d, fmt)
    {
      var str, ret, more := PrintMember(members[i], d, fmt);
      MembersNeedStep(members, i, d, fmt);
      names[i] := str;
      entries[i] := ret;
      len := len + more;
      i := i + 1;
    }
  }

  method PrintObject(members: seq<Member>, depth: nat, fmt: bool) returns (text: CString)
    ensures text == PrintValue(Obj(members), depth, fmt)
    decreases members, 2
  {
    var d := depth + 1;
    var names, entries, len := CollectMembers(members, d, fmt);
    ComposedIs(members, names[..], entries[..], 0, d, fmt);
    var out := new Byte[len];
    var p := PutOpen(out, fmt);
    p := PutMembers(out, p, names, entries, d, fmt);
    p := PutClose(out, p, depth, fmt);
    assert out[..p] == PrintValue(Obj(members), depth, fmt);
    ValueNoNul(Obj(members), depth, fmt);
    text := out[..p];
  }

  // The second pass works on the printed names and values only.

  function NamePart(name: Bytes, d: nat, fmt: bool): Bytes {
    Only(fmt, Tabs(d)) + name + [COLON] + Only(fmt, [TAB])
  }

  function MemberPart(name: Bytes, entry: Bytes, last: bool, d: nat, fmt: bool): Bytes {
    NamePart(name, d, fmt) + (entry + MemberEnd(last, fmt))
  }

  function PartNeed(name: Bytes, entry: Bytes, d: nat, fmt: bool): nat {
    |entry| + |name| + 2 + if fmt then 2 + d else 0
  }

  /** The text composed of the printed members from position `i` on, and the size allowed for it. */
  function Composed(names: seq<CString>, entries: seq<CString>, i: nat, d: nat, fmt: bool): Bytes
    requires |names| == |entries|
    decreases |names| - i
  {
    if i >= |names| then []
    else MemberPart(names[i], entries[i], i == |names| - 1, d, fmt) + Composed(names, entries, i + 1, d, fmt)
  }

  function ComposedNeed(names: seq<CString>, entries: seq<CString>, i: nat, d: nat, fmt: bool): nat
    requires |names| == |entries|
    decreases |names| - i
  { if i >= |names| then 0 else PartNeed(names[i], entries[i], d, fmt) + ComposedNeed(names, entries, i + 1, d, fmt) }

  lemma {:induction false} ComposedIs(
    members: seq<Member>, names: seq<CString>, entries: seq<CString>, i: nat, d: nat, fmt: bool)
    requires i <= |members| == |names| == |entries|
    requires forall j | i <= j < |members| :: names[j] == PrintString(members[j].name)
    requires forall j | i <= j < |members| :: entries[j] == PrintValue(members[j].value, d, fmt)
    ensures Composed(names, entries, i, d, fmt) == PrintMembers(members[i..], d, fmt)
    ensures ComposedNeed(names, entries, i, d, fmt) == MembersNeed(members[i..], d, fmt)
    ensures members[0..] == members
    decreases |members| - i
  {
    if i < |members| {
      ComposedIs(members, names, entries, i + 1, d, fmt);
      assert members[i..][1..] == members[i + 1..];
      var a, b, c := MemberStart(members[i].name, d, fmt), entries[i], MemberEnd(i == |members| - 1, fmt);
      CatThree(a, b, c);
    }
  }

  lemma CatThree(x: Bytes, a: Bytes, b: Bytes)
    ensures (x + a) + b == x + (a + b)
  {
  }

  method PutOpen(out: array<Byte>, fmt: bool) returns (p: nat)
    requires out.Length > 2
    modifies out
    ensures p == 1 + FmtOne(fmt) && out[..p] == [OPEN_OBJ] + Only(fmt, [NEWLINE])
  {
    out[0] := OPEN_OBJ;
    p := 1;
    if fmt {
      out[p] := NEWLINE;
      p := p + 1;
    }
    out[p] := 0;
  }

  method PutClose(out: array<Byte>, p: nat, depth: nat, fmt: bool) returns (p': nat)
    requires p + depth + 1 < out.Length || (!fmt && p + 1 < out.Length)
    modifies out
    ensures p <= p' < out.Length && out[p'] == 0
    ensures out[..p'] == old(out[..p]) + Only(fmt, Tabs(depth)) + [CLOSE_OBJ]
  {
    p' := p;
    if fmt { p' := PutTabs(out, p', depth); }
    out[p'], out[p' + 1] := CLOSE_OBJ, 0;
    p' := p' + 1;
  }

  lemma MembersNeedStep(members: seq<Member>, i: nat, d: nat, fmt: bool)
    requires i < |members|
    ensures MembersNeed(members[i..], d, fmt) == MemberNeed(members[i], d, fmt) + MembersNeed(members[i + 1..], d, fmt)
  {
    assert members[i..][1..] == members[i + 1..];
  }

  /** The loop that composes an object in its buffer. */
  method PutMembers(out: array<Byte>, start: nat, names: array<CString>, entries: array<CString>, d: nat, fmt: bool)
    returns (p: nat)
    requires names.Length == entries.Length
    requires start + ComposedNeed(names[..], entries[..], 0, d, fmt) + (if fmt then d + 4 else 4) <= out.Length
    modifies out
    ensures p + (if fmt then d + 4 else 4) <= out.Length
    ensures out[..p] == old(out[..start]) + Composed(names[..], entries[..], 0, d, fmt)
  {
    p := start;
    ghost var ns, es := names[..], entries[..];
    ghost var text := out[..start] + Composed(ns, es, 0, d, fmt);
    var i := 0;
    while i < names.Length
      invariant 0 <= i <= |ns| && ns == names[..] && es == entries[..]
      invariant p + ComposedNeed(ns, es, i, d, fmt) + (if fmt then d + 4 else 4) <= out.Length
      invariant out[..p] + Composed(ns, es, i, d, fmt) == text
      modifies out
    {
      var name, entry, last := names[i], entries[i], i == names.Length - 1;
      CatThree(out[..p], MemberPart(name, entry, last, d, fmt), Composed(ns, es, i + 1, d, fmt));
      p := PutMember(out, p, name, entry, last, d, fmt);
      i := i + 1;
    }
  }

  /** One round of the loop that composes an object. */
  method PutMember(out: array<Byte>, p: nat, name: CString, entry: CString, last: bool, d: nat, fmt: bool)
    returns (p': nat)
    requires p + PartNeed(name, entry, d, fmt) < out.Length
    modifies out
    ensures p <= p' <= p + PartNeed(name, entry, d, fmt)
    ensures out[..p'] == old(out[..p]) + MemberPart(name, entry, last, d, fmt)
  {
    p' := PutName(out, p, name, d, fmt);
    CatThree(old(out[..p]), NamePart(name, d, fmt), entry + MemberEnd(last, fmt));
    p' := PutEntry(out, p', entry, last, fmt);
  }

  /** The value, the comma after it and the line end. */
  method PutEntry(out: array<Byte>, p: nat, entry: CString, last: bool, fmt: bool) returns (p': nat)
    requires p + |entry| + 1 + FmtOne(fmt) < out.Length
    modifies out
    ensures p <= p' <= p + |entry| + 1 + FmtOne(fmt)
    ensures out[..p'] == old(out[..p]) + (entry + MemberEnd(last, fmt))
  {
    p' := p;
    StringCopy(out, p', entry);
    p' := p' + |entry|;
    if !last {
      out[p'] := COMMA;
      p' := p' + 1;
    }
    if fmt {
      out[p'] := NEWLINE;
      p' := p' + 1;
    }
    out[p'] := 0;
  }

  /** The tabs, the name, the colon and the tab after it. */
  method PutName(out: array<Byte>, p: nat, name: CString, d: nat, fmt: bool) returns (p': nat)
    requires p + |name| + 1 + (if fmt then 1 + d else 0) < out.Length
    modifies out
    ensures p <= p' <= p + |name| + 1 + (if fmt then 1 + d else 0)
    ensures out[..p'] == old(out[..p]) + NamePart(name, d, fmt)
  {
    p' := p;
    if fmt { p' := PutTabs(out, p', d); }
    StringCopy(out, p', name);
    p' := p' + |name|;
    out[p'] := COLON;
    p' := p' + 1;
    if fmt {
      out[p'] := TAB;
      p' := p' + 1;
    }
  }
}
