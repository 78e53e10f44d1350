/**
 What is printed is JSON, byte for byte, and parsing it gives the tree back, with unprintable
 control bytes removed.
 */
module CJsonRoundTrip {
  import opened CJson
  import opened JsonGrammar
  import opened CJsonText

  /** A byte that JSON text can hold: no control character, or one with a two-character escape. */
  predicate Survives(c: Byte) { c >= 32 || c in {8, 9, 10, 12, 13} }

  /** What survives of a string: its bytes except the control bytes that have no escape. */
  function Strip(s: CString): (r: CString) {
    if s == [] then [] else (if Survives(s[0]) then [s[0]] else []) + Strip(s[1..])
  }

  function StripValue(v: Json): Json
    decreases v
  {
    match v
    case Str(s) => Str(Strip(s))
    case Arr(elems) => Arr(StripElems(elems))
    case Obj(members) => Obj(StripMembers(members))
    case _ => v
  }

  function StripElems(elems: seq<Json>): (r: seq<Json>)
    ensures |r| == |elems|
    decreases elems
  { if elems == [] then [] else [StripValue(elems[0])] + StripElems(elems[1..]) }

  function StripMembers(members: seq<Member>): (r: seq<Member>)
    ensures |r| == |members|
    decreases members
  {
    if members == [] then []
    else [Member(Strip(members[0].name), StripValue(members[0].value))] + StripMembers(members[1..])
  }

  /** Every byte of the string has a printed form. */
  predicate Printable(s: Bytes) { forall i | 0 <= i < |s| :: Survives(s[i]) }

  predicate PrintableValue(v: Json)
    decreases v
  {
    match v
    case Str(s) => Printable(s)
    case Arr(elems) => forall i | 0 <= i < |elems| :: PrintableValue(elems[i])
    case Obj(members) => forall i | 0 <= i < |members| :: PrintableMember(members[i])
    case _ => true
  }

  predicate PrintableMember(m: Member)
    decreases m
  { Printable(m.name) && PrintableValue(m.value) }

  lemma {:induction false} StripPrintable(s: CString)
    ensures Printable(Strip(s))
    ensures Strip(s) == s <==> Printable(s)
    ensures |Strip(s)| <= |s|
  {
    if s != [] {
      StripPrintable(s[1..]);
      assert s == [s[0]] + s[1..];
      if Strip(s) == s {
        assert Survives(s[0]);
        assert Strip(s)[1..] == Strip(s[1..]);
      }
    }
  }

  lemma {:induction false} StripKeeps(v: Json)
    ensures StripValue(v) == v <==> PrintableValue(v)
    decreases v
  {
    match v {
      case Str(s) => StripPrintable(s);
      case Arr(elems) => StripKeepsElems(elems);
      case Obj(members) => StripKeepsMembers(members);
      case _ =>
    }
  }

  lemma {:induction false} StripKeepsElems(elems: seq<Json>)
    ensures StripElems(elems) == elems <==> forall i | 0 <= i < |elems| :: PrintableValue(elems[i])
    decreases elems
  {
    if elems != [] {
      StripKeeps(elems[0]);
      StripKeepsElems(elems[1..]);
      assert StripElems(elems)[1..] == StripElems(elems[1..]);
      assert elems == [elems[0]] + elems[1..];
    }
  }

  lemma {:induction false} StripKeepsMembers(members: seq<Member>)
    ensures StripMembers(members) == members
      <==> forall i | 0 <= i < |members| :: PrintableMember(members[i])
    decreases members
  {
    if members != [] {
      StripPrintable(members[0].name);
      StripKeeps(members[0].value);
      StripKeepsMembers(members[1..]);
      assert StripMembers(members)[1..] == StripMembers(members[1..]);
      assert forall i | 0 <= i < |members[1..]| :: members[1..][i] == members[i + 1];
      assert (forall i | 0 <= i < |members| :: PrintableMember(members[i]))
        <==> PrintableMember(members[0]) && forall i | 0 <= i < |members[1..]| :: PrintableMember(members[1..][i]);
    }
  }

  // ----------------------------------------------------------------------------------------
  // What is printed

  /** The syntax tree of a printed string, */
  function PrintedChars(s: Bytes): seq<Char> {
    if s == [] then []
    else (if Plain(s[0]) || Escaped(s[0]) then [PrintedChar(s[0])] else []) + PrintedChars(s[1..])
  }

  function PrintedChar(c: Byte): Char { if Plain(c) then Raw(c) else Escape(Letter(c)) }

  function PrintedString(s: Bytes): Quoted { Quoted(PrintedChars(s), true) }

  /** of a number, */
  function PrintedNumber(n: int): Text {
    NumberText(n < 0, n == 0, if n == 0 then [] else Digits(if n < 0 then -n else n))
  }

  /** and of a value. */
  function Printed(v: Json, depth: nat, fmt: bool): Text
    decreases v
  {
    match v
    case Null => NullText
    case False => FalseText
    case True => TrueText
    case Number(n) => PrintedNumber(n)
    case Str(s) => StringText(PrintedString(s))
    case Arr(elems) => ArrayText([], PrintedItems(elems, depth + 1, fmt, true))
    case Obj(members) =>
      ObjectText(if members == [] then Indent(depth, fmt) else [], PrintedEntries(members, depth + 1, fmt))
  }

  function PrintedItems(elems: seq<Json>, depth: nat, fmt: bool, first: bool): (r: seq<Item>)
    ensures |r| == |elems|
    decreases elems
  {
    if elems == [] then []
    else
      [Item(if fmt && !first then [32] else [], Printed(elems[0], depth, fmt), [])]
      + PrintedItems(elems[1..], depth, fmt, false)
  }

  function PrintedEntries(members: seq<Member>, depth: nat, fmt: bool): (r: seq<Entry>)
    requires depth > 0
    ensures |r| == |members|
    decreases members
  {
    if members == [] then []
    else
      [Entry(Indent(depth, fmt), PrintedString(members[0].name), [], if fmt then [9] else [],
             Printed(members[0].value, depth, fmt), if |members| == 1 then Indent(depth - 1, fmt) else [])]
      + PrintedEntries(members[1..], depth, fmt)
  }

  lemma {:induction false} CharsPrinted(s: CString, tail: Bytes)
    ensures PrintBytes(s) + tail == PutChars(PrintedChars(s), tail)
    ensures StrictQuoted(PrintedString(s)) && LaidQuoted(PrintedString(s)) && Decoded(PrintedChars(s)) == Strip(s)
  {
    if s == [] {
      assert PrintBytes(s) + tail == tail;
    } else {
      CharsPrinted(s[1..], tail);
      Cat3(PrintByte(s[0]), PrintBytes(s[1..]), tail);
      assert Survives(s[0]) <==> Plain(s[0]) || Escaped(s[0]);
      if Survives(s[0]) {
        CharPrinted(s[0]);
        assert PrintedChars(s) == [PrintedChar(s[0])] + PrintedChars(s[1..]);
      } else {
        assert PrintedChars(s) == PrintedChars(s[1..]) && Strip(s) == Strip(s[1..]);
        assert PrintByte(s[0]) + (PrintBytes(s[1..]) + tail) == PrintBytes(s[1..]) + tail;
      }
    }
  }

  lemma CharPrinted(c: Byte)
    requires Plain(c) || Escaped(c)
    ensures var ch := PrintedChar(c);
      && PrintByte(c) == PutChar(ch) && StrictChar(ch) && Decode(ch) == c
      && (ch.Escape? ==> ch.letter in {34, 92, 98, 102, 110, 114, 116})
  {
  }

  lemma StringPrinted(s: CString, rest: Bytes)
    ensures PrintString(s) + rest == PutQuoted(PrintedString(s), rest)
    ensures StrictQuoted(PrintedString(s)) && LaidQuoted(PrintedString(s)) && Decoded(PrintedChars(s)) == Strip(s)
  {
    CharsPrinted(s, [34] + rest);
    assert PrintString(s) + rest == [34] + (PrintBytes(s) + ([34] + rest));
  }

  lemma {:induction false} DigitsPrinted(n: nat)
    ensures AllDigits(Digits(n)) && Decimal(Digits(n)) == n && Digits(n) != [] && (n > 0 ==> Digits(n)[0] != 48)
  {
    if n < 10 {
      assert Digits(n)[..0] == [];
    } else {
      DigitsPrinted(n / 10);
      assert Digits(n)[..|Digits(n)| - 1] == Digits(n / 10);
    }
  }

  lemma NumberPrinted(n: Int32, rest: Bytes)
    ensures PrintNumber(n) + rest == Put(PrintedNumber(n), rest)
    ensures Strict(PrintedNumber(n)) && Laid(PrintedNumber(n), 0, false) && Means(PrintedNumber(n), Number(n))
  {
    var m: nat := if n < 0 then -(n as int) else n;
    DigitsPrinted(m);
    if n < 0 { Cat3([45], Digits(m), rest); }
    if n == 0 { assert [48] + rest == [48] + ([] + rest); }
  }

  /** A printed value is a JSON text of what survives of it, laid out as the printer does: byte for byte,
      whatever follows it. */
  lemma {:induction false} ValuePrinted(v: Json, depth: nat, fmt: bool, rest: Bytes)
    ensures PrintValue(v, depth, fmt) + rest == Put(Printed(v, depth, fmt), rest)
    ensures Means(Printed(v, depth, fmt), StripValue(v))
    ensures Strict(Printed(v, depth, fmt)) && Laid(Printed(v, depth, fmt), depth, fmt)
    decreases v, 1
  {
    match v
    case Null =>
    case False =>
    case True =>
    case Number(n) => NumberPrinted(n, rest);
    case Str(s) => StringPrinted(s, rest);
    case Arr(elems) =>
      ArrayPrinted(elems, depth, fmt, rest);
      ItemsStrict(elems, depth + 1, fmt, true);
    case Obj(members) =>
      ObjectPrinted(members, depth, fmt, rest);
      EntriesStrict(members, depth + 1, fmt);
  }

  lemma {:induction false} ArrayPrinted(elems: seq<Json>, depth: nat, fmt: bool, rest: Bytes)
    ensures PrintValue(Arr(elems), depth, fmt) + rest == Put(Printed(Arr(elems), depth, fmt), rest)
    decreases elems, 1
  {
    var end := [93] + rest;
    var body := PrintElems(elems, depth + 1, fmt);
    assert PrintValue(Arr(elems), depth, fmt) + rest == [91] + (body + end);
    if elems == [] {
      assert body + end == [] + end;
    } else {
      ElemsPrinted(elems, depth + 1, fmt, true, end);
      assert [] + (body + end) == body + end;
    }
  }

  lemma {:induction false} ObjectPrinted(members: seq<Member>, depth: nat, fmt: bool, rest: Bytes)
    ensures PrintValue(Obj(members), depth, fmt) + rest == Put(Printed(Obj(members), depth, fmt), rest)
    decreases members, 1
  {
    ObjectOpens(members, depth, fmt, rest);
    if members == [] {
      assert PrintMembers(members, depth + 1, fmt) == [];
      assert Only(fmt, [10]) + ([] + (Only(fmt, Tabs(depth)) + ([125] + rest))) == Indent(depth, fmt) + ([125] + rest);
    } else {
      MembersPrinted(members, depth + 1, fmt, [125] + rest);
    }
  }

  lemma ElemsText(elems: seq<Json>, depth: nat, fmt: bool, end: Bytes)
    requires elems != []
    ensures PrintElems(elems, depth, fmt) + end
         == PrintValue(elems[0], depth, fmt) + (ElemEnd(|elems| == 1, fmt) + (PrintElems(elems[1..], depth, fmt) + end))
  {
    var v, last := PrintValue(elems[0], depth, fmt), ElemEnd(|elems| == 1, fmt);
    var more := PrintElems(elems[1..], depth, fmt);
    Cat3(v + last, more, end);
    Cat3(v, last, more + end);
  }

  lemma ElemEnds(more: Bytes, fmt: bool, end: Bytes)
    ensures ElemEnd(false, fmt) + more == [] + ([44] + (Only(fmt, [32]) + more))
    ensures ElemEnd(true, fmt) + ([] + end) == [] + end
  {
  }

  lemma {:induction false} ElemsPrinted(elems: seq<Json>, depth: nat, fmt: bool, first: bool, end: Bytes)
    requires elems != []
    ensures (if fmt && !first then [32] else []) + (PrintElems(elems, depth, fmt) + end)
         == PutItems(PrintedItems(elems, depth, fmt, first), end)
    decreases elems, 0
  {
    var items := PrintedItems(elems, depth, fmt, first);
    var more := PrintElems(elems[1..], depth, fmt) + end;
    assert items[1..] == PrintedItems(elems[1..], depth, fmt, false);
    ElemsText(elems, depth, fmt, end);
    ElemEnds(more, fmt, end);
    if |elems| > 1 { ElemsPrinted(elems[1..], depth, fmt, false, end); }
    ValuePrinted(elems[0], depth, fmt, ElemEnd(|elems| == 1, fmt) + more);
  }

  lemma {:induction false} ItemsStrict(elems: seq<Json>, depth: nat, fmt: bool, first: bool)
    ensures var items := PrintedItems(elems, depth, fmt, first);
      && ItemsMean(items, StripElems(elems)) && LaidItems(items, depth, fmt, first)
      && forall i | 0 <= i < |items| :: StrictItem(items[i])
    decreases elems, 0
  {
    if elems != [] {
      var items := PrintedItems(elems, depth, fmt, first);
      assert items[1..] == PrintedItems(elems[1..], depth, fmt, false);
      assert StripElems(elems)[1..] == StripElems(elems[1..]);
      ValuePrinted(elems[0], depth, fmt, []);
      ItemsStrict(elems[1..], depth, fmt, false);
      forall i | 0 <= i < |items| ensures StrictItem(items[i]) {
        if i > 0 { assert items[i] == items[1..][i - 1]; }
      }
    }
  }

  lemma ObjectOpens(members: seq<Member>, depth: nat, fmt: bool, rest: Bytes)
    ensures PrintValue(Obj(members), depth, fmt) + rest
         == [123] + (Only(fmt, [10])
            + (PrintMembers(members, depth + 1, fmt) + (Only(fmt, Tabs(depth)) + ([125] + rest))))
  {
    var a, b, c := Only(fmt, [10]), PrintMembers(members, depth + 1, fmt), Only(fmt, Tabs(depth));
    Cat3([123] + a + b + c, [125], rest);
    Cat3([123] + a + b, c, [125] + rest);
    Cat3([123] + a, b, c + ([125] + rest));
    Cat3([123], a, b + (c + ([125] + rest)));
  }

  // One member, after its line end, up to what follows it.
  lemma MemberPrinted(m: Member, depth: nat, fmt: bool, next: Bytes)
    requires PrintValue(m.value, depth, fmt) + next == Put(Printed(m.value, depth, fmt), next)
    ensures Only(fmt, [10]) + (MemberStart(m.name, depth, fmt) + (PrintValue(m.value, depth, fmt) + next))
         == Indent(depth, fmt) + PutQuoted(PrintedString(m.name),
              [] + ([58] + ((if fmt then [9] else []) + Put(Printed(m.value, depth, fmt), next))))
  {
    var value := PrintValue(m.value, depth, fmt) + next;
    var tabs, name, gap := Only(fmt, Tabs(depth)), PrintString(m.name), Only(fmt, [9]);
    var colon := [] + ([58] + (gap + value));
    StringPrinted(m.name, colon);
    assert MemberStart(m.name, depth, fmt) + value == tabs + (name + colon);
    assert Only(fmt, [10]) + (tabs + (name + colon)) == Indent(depth, fmt) + (name + colon);
  }

  lemma MembersText(members: seq<Member>, depth: nat, fmt: bool, end: Bytes)
    requires members != []
    ensures PrintMembers(members, depth, fmt) + end
         == MemberStart(members[0].name, depth, fmt) + (PrintValue(members[0].value, depth, fmt)
            + (MemberEnd(|members| == 1, fmt) + (PrintMembers(members[1..], depth, fmt) + end)))
  {
    var start, v := MemberStart(members[0].name, depth, fmt), PrintValue(members[0].value, depth, fmt);
    var last, more := MemberEnd(|members| == 1, fmt), PrintMembers(members[1..], depth, fmt);
    Cat3(start + v + last, more, end);
    Cat3(start + v, last, more + end);
    Cat3(start, v, last + (more + end));
  }

  // What follows a member: its line end goes to the next one, or to the closing brace.
  lemma MemberEnds(more: Bytes, depth: nat, fmt: bool, end: Bytes)
    ensures MemberEnd(false, fmt) + more == [] + ([44] + (Only(fmt, [10]) + more))
    ensures MemberEnd(true, fmt) + ([] + (Only(fmt, Tabs(depth)) + end)) == Indent(depth, fmt) + end
  {
  }

  lemma {:induction false} MembersPrinted(members: seq<Member>, depth: nat, fmt: bool, end: Bytes)
    requires members != [] && depth > 0
    ensures Only(fmt, [10]) + (PrintMembers(members, depth, fmt) + (Only(fmt, Tabs(depth - 1)) + end))
         == PutEntries(PrintedEntries(members, depth, fmt), end)
    decreases members, 0
  {
    var m, entries := members[0], PrintedEntries(members, depth, fmt);
    var last := Only(fmt, Tabs(depth - 1)) + end;
    var more := PrintMembers(members[1..], depth, fmt) + last;
    assert entries[1..] == PrintedEntries(members[1..], depth, fmt);
    MembersText(members, depth, fmt, last);
    MemberEnds(more, depth - 1, fmt, end);
    if |members| > 1 { MembersPrinted(members[1..], depth, fmt, end); }
    var next := MemberEnd(|members| == 1, fmt) + more;
    ValuePrinted(m.value, depth, fmt, next);
    MemberPrinted(m, depth, fmt, next);
  }

  lemma {:induction false} EntriesStrict(members: seq<Member>, depth: nat, fmt: bool)
    requires depth > 0
    ensures var entries := PrintedEntries(members, depth, fmt);
      && EntriesMean(entries, StripMembers(members)) && LaidEntries(entries, depth, fmt)
      && forall i | 0 <= i < |entries| :: StrictEntry(entries[i])
    decreases members, 0
  {
    if members != [] {
      var entries := PrintedEntries(members, depth, fmt);
      assert entries[1..] == PrintedEntries(members[1..], depth, fmt);
      assert StripMembers(members)[1..] == StripMembers(members[1..]);
      StringPrinted(members[0].name, []);
      ValuePrinted(members[0].value, depth, fmt, []);
      EntriesStrict(members[1..], depth, fmt);
      forall i | 0 <= i < |entries| ensures StrictEntry(entries[i]) {
        if i > 0 { assert entries[i] == entries[1..][i - 1]; }
      }
    }
  }

  /** The printed text is JSON for what survives of the value, formatted or not, in the layout of the
      printer. */
  lemma PrintIsJson(v: Json, depth: nat, fmt: bool)
    ensures IsJson(PrintValue(v, depth, fmt), StripValue(v))
    ensures exists t ::
      Strict(t) && Laid(t, depth, fmt) && Means(t, StripValue(v)) && PrintValue(v, depth, fmt) == Put(t, [])
  {
    var text, t := PrintValue(v, depth, fmt), Printed(v, depth, fmt);
    ValuePrinted(v, depth, fmt, []);
    assert text + [] == text && [] + Put(t, []) == Put(t, []);
    var none: Bytes := [];
    assert Whitespace(none) && text == none + Put(t, none);
  }

  // ----------------------------------------------------------------------------------------
  // Round trips

  lemma StringRoundTrip(s: CString, rest: Bytes)
    ensures ParseString(PrintString(s) + rest) == Ok(Strip(s), rest)
  {
    StringPrinted(s, rest);
    assert forall i | 0 <= i < |PrintedChars(s)| :: StrictChar(PrintedChars(s)[i]);
    QuotedParses(PrintedString(s), rest);
  }

  /** A text that ends a number. */
  predicate Stops(t: Bytes) { t != [] && !IsDigit(t[0]) && t[0] != 46 && t[0] != 69 && t[0] != 101 }

  lemma NumberRoundTrip(n: Int32, rest: Bytes)
    requires Stops(rest)
    ensures ParseNumber(PrintNumber(n) + rest) == Ok(Number(n), rest)
  {
    NumberPrinted(n, rest);
    var t := PrintedNumber(n);
    NumberParses(t.minus, t.zero, t.digits, rest, n);
  }

  lemma ValueRoundTrip(v: Json, depth: nat, fmt: bool, rest: Bytes)
    requires v.Number? ==> Stops(rest)
    ensures ParseValue(PrintValue(v, depth, fmt) + rest) == Ok(StripValue(v), rest)
  {
    var t := Printed(v, depth, fmt);
    ValuePrinted(v, depth, fmt, rest);
    StrictIsLax(t, rest);
    TextParses(t, rest, StripValue(v));
  }

  lemma ArrayRoundTrip(elems: seq<Json>, depth: nat, fmt: bool, rest: Bytes)
    ensures ParseValue(PrintValue(Arr(elems), depth, fmt) + rest) == Ok(Arr(StripElems(elems)), rest)
  {
    ValueRoundTrip(Arr(elems), depth, fmt, rest);
  }

  lemma ObjectRoundTrip(members: seq<Member>, depth: nat, fmt: bool, rest: Bytes)
    ensures ParseValue(PrintValue(Obj(members), depth, fmt) + rest) == Ok(Obj(StripMembers(members)), rest)
  {
    ValueRoundTrip(Obj(members), depth, fmt, rest);
  }

  /** cJSON_Parse of what cJSON_Print or cJSON_PrintUnformatted wrote: the same tree, but for
      control bytes that have no escape; so exactly the printable trees come back unchanged. */
  lemma RoundTrip(v: Json, fmt: bool)
    ensures Parse(PrintValue(v, 0, fmt)) == Ok(StripValue(v), [0])
    ensures Parse(PrintValue(v, 0, fmt)) == Ok(v, [0]) <==> PrintableValue(v)
  {
    ValueRoundTrip(v, 0, fmt, [0]);
    ValuePrinted(v, 0, fmt, [0]);
    StrictIsLax(Printed(v, 0, fmt), [0]);
    PutFirst(Printed(v, 0, fmt), [0]);
    StripKeeps(v);
  }
}
