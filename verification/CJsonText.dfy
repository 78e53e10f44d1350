/** The parser of moxi/cJSON.c takes exactly the texts of the wider grammar, with their values. */
module CJsonText {
  import opened CJson
  import opened JsonGrammar

  // ----------------------------------------------------------------------------------------
  // Blanks

  lemma {:induction false} SkipBlanks(blanks: Bytes, t: Bytes)
    requires Blank(blanks)
    ensures Skip(blanks + t) == Skip(t)
  {
    if blanks == [] {
      assert blanks + t == t;
    } else {
      SkipBlanks(blanks[1..], t);
      assert (blanks + t)[1..] == blanks[1..] + t;
    }
  }

  lemma SkipPast(blanks: Bytes, t: Bytes)
    requires Blank(blanks) && t != [] && t[0] > 32
    ensures Skip(blanks + t) == t
  {
    SkipBlanks(blanks, t);
  }

  lemma {:induction false} SkipTwice(s: Bytes)
    ensures Skip(Skip(s)) == Skip(s)
  {
    if s != [] && s[0] <= 32 { SkipTwice(s[1..]); }
  }

  lemma {:induction false} SkipSplit(s: Bytes) returns (blanks: Bytes)
    ensures Blank(blanks) && s == blanks + Skip(s) && (Skip(s) != [] ==> Skip(s)[0] > 32)
  {
    if s != [] && s[0] <= 32 {
      var more := SkipSplit(s[1..]);
      blanks := [s[0]] + more;
      assert s == [s[0]] + s[1..];
    } else {
      blanks := [];
    }
  }

  lemma ElemsSkip(s: Bytes)
    ensures ParseElems(Skip(s)) == ParseElems(s)
  {
    SkipTwice(s);
    assert ParseElem(Skip(s)) == ParseElem(s);
  }

  lemma MembersSkip(s: Bytes)
    ensures ParseMembers(Skip(s)) == ParseMembers(s)
  {
    SkipTwice(s);
    assert ParseMember(Skip(s)) == ParseMember(s) by { assert ParseName(Skip(s)) == ParseName(s); }
  }

  // ----------------------------------------------------------------------------------------
  // Every text of the grammar is parsed

  lemma {:induction false} DigitsParse(digits: Bytes, t: Bytes)
    requires AllDigits(digits)
    ensures Decimal(digits) >= 0 && ScanDigits(digits + t, 0) == ScanDigits(t, Decimal(digits))
  {
    if digits == [] {
      assert digits + t == t;
    } else {
      var front, d := digits[..|digits| - 1], digits[|digits| - 1];
      DigitsParse(front, [d] + t);
      assert digits + t == front + ([d] + t);
      assert ([d] + t)[1..] == t;
    }
  }

  lemma DigitsTaken(digits: Bytes, rest: Bytes)
    requires AllDigits(digits) && (digits != [] ==> digits[0] != 48)
    requires rest != [] && !(49 <= rest[0] <= 57) && (digits != [] ==> rest[0] != 48)
    ensures var s := digits + rest;
      (if s != [] && 49 <= s[0] <= 57 then ScanDigits(s, 0) else (0, s)) == (Decimal(digits), rest)
  {
    if digits == [] {
      assert digits + rest == rest;
    } else {
      DigitsParse(digits, rest);
      assert (digits + rest)[0] == digits[0];
    }
  }

  lemma MaybeTaken(there: bool, c: Byte, s: Bytes)
    requires s != [] && (!there ==> s[0] != c)
    ensures var t := Maybe(there, c, s); t != [] && (t[0] == c <==> there) && (if there then t[1..] else t) == s
  {
    if there { assert ([c] + s)[1..] == s; }
  }

  lemma NumberParses(minus: bool, zero: bool, digits: Bytes, rest: Bytes, n: Int32)
    requires LaxNumber(minus, zero, digits, rest)
    requires n == if minus then -Decimal(digits) else Decimal(digits)
    ensures ParseNumber(Put(NumberText(minus, zero, digits), rest)) == Ok(Number(n), rest)
  {
    var s2 := digits + rest;
    var s1 := Maybe(zero, 48, s2);
    assert s2[0] == if digits == [] then rest[0] else digits[0];
    DigitsTaken(digits, rest);
    MaybeTaken(zero, 48, s2);
    MaybeTaken(minus, 45, s1);
    PartsParse(Maybe(minus, 45, s1), s1, s2, Decimal(digits), rest);
  }

  // A number from what is left after its sign, its zero and its digits.
  lemma PartsParse(s: Bytes, s1: Bytes, s2: Bytes, n: int, rest: Bytes)
    requires s != [] && s1 == (if s[0] == 45 then s[1..] else s)
    requires s2 == if s1 != [] && s1[0] == 48 then s1[1..] else s1
    requires (if s2 != [] && 49 <= s2[0] <= 57 then ScanDigits(s2, 0) else (0, s2)) == (n, rest)
    requires rest != [] && rest[0] !in {46, 69, 101} && -0x8000_0000 <= (if s[0] == 45 then -n else n) < 0x8000_0000
    ensures ParseNumber(s) == Ok(Number(if s[0] == 45 then -n else n), rest)
  {
  }

  lemma {:induction false} CharsParse(chars: seq<Char>, closed: bool, rest: Bytes)
    requires LaxChars(chars) && (closed || (rest != [] && rest[0] <= 31))
    ensures 0 !in Decoded(chars)
    ensures ParseChars(PutChars(chars, Maybe(closed, 34, rest))) == Ok(Decoded(chars), rest)
  {
    var tail := Maybe(closed, 34, rest);
    if chars == [] {
      if closed { assert tail[1..] == rest; }
    } else {
      assert LaxChar(chars[0]);
      CharsParse(chars[1..], closed, rest);
      CharParses(chars[0], PutChars(chars[1..], tail));
    }
  }

  lemma CharParses(ch: Char, more: Bytes)
    requires LaxChar(ch)
    ensures Decode(ch) != 0 && ParseChars(PutChar(ch) + more) == Prefix(Decode(ch), ParseChars(more))
  {
    match ch
    case Raw(c) => assert ([c] + more)[1..] == more;
    case Escape(letter) => assert ([92, letter] + more)[2..] == more;
  }

  lemma QuotedParses(q: Quoted, rest: Bytes)
    requires LaxQuoted(q, rest)
    ensures 0 !in Decoded(q.chars) && ParseString(PutQuoted(q, rest)) == Ok(Decoded(q.chars), rest)
  {
    CharsParse(q.chars, q.closed, rest);
    assert PutQuoted(q, rest)[1..] == PutChars(q.chars, Maybe(q.closed, 34, rest));
  }

  // The first byte of a text is what the parser dispatches on.
  lemma PutFirst(t: Text, rest: Bytes)
    requires Lax(t, rest)
    ensures var s := Put(t, rest); s != [] && s[0] > 32 && s[0] != 93
    ensures t.NumberText? ==> var s := Put(t, rest); s[0] == 45 || 48 <= s[0] <= 57
  {
    if t.NumberText? && t.digits != [] && !t.zero && !t.minus {
      assert Put(t, rest) == t.digits + rest;
    }
  }

  lemma {:induction false} TextParses(t: Text, rest: Bytes, v: Json)
    requires Lax(t, rest) && Means(t, v)
    ensures ParseValue(Put(t, rest)) == Ok(v, rest)
    decreases t
  {
    PutFirst(t, rest);
    match t {
      case NumberText(minus, zero, digits) => NumberParses(minus, zero, digits, rest, v.n);
      case StringText(q) => QuotedParses(q, rest);
      case ArrayText(blank, items) => ArrayParses(blank, items, rest, v.elems);
      case ObjectText(blank, entries) => ObjectParses(blank, entries, rest, v.members);
      case NullText => assert Put(t, rest)[4..] == rest;
      case FalseText => assert Put(t, rest)[5..] == rest;
      case TrueText => assert Put(t, rest)[4..] == rest;
    }
  }

  lemma {:induction false} ArrayParses(blank: Bytes, items: seq<Item>, rest: Bytes, elems: seq<Json>)
    requires Lax(ArrayText(blank, items), rest) && ItemsMean(items, elems)
    ensures ParseValue(Put(ArrayText(blank, items), rest)) == Ok(Arr(elems), rest)
    decreases items, 2
  {
    var s, end := Put(ArrayText(blank, items), rest), [93] + rest;
    assert end[1..] == rest;
    if items == [] {
      assert s[1..] == blank + end;
      SkipPast(blank, end);
    } else {
      var body := PutItems(items, end);
      assert s[1..] == body;
      ItemsFirst(items, end);
      ItemsParse(items, rest, elems);
      ElemsSkip(body);
    }
  }

  lemma ItemsFirst(items: seq<Item>, end: Bytes)
    requires items != [] && LaxItems(items, end)
    ensures var t := Skip(PutItems(items, end)); t != [] && t[0] != 93
  {
    var it, more := items[0], items[0].after + MoreItems(items, end);
    PutFirst(it.value, more);
    SkipPast(it.before, Put(it.value, more));
  }

  // One element and what follows it.
  lemma ElemParses(before: Bytes, s: Bytes, v: Json, after: Bytes, next: Bytes)
    requires Blank(before) && Blank(after) && s != [] && s[0] > 32 && next != [] && next[0] > 32
    requires ParseValue(s) == Ok(v, after + next)
    ensures next[0] == COMMA ==> ParseElems(before + s) == PrependElem(v, ParseElems(next[1..]))
    ensures next[0] == CLOSE ==> ParseElems(before + s) == Ok([v], next[1..])
  {
    SkipPast(before, s);
    SkipPast(after, next);
  }

  lemma {:induction false} ItemsParse(items: seq<Item>, rest: Bytes, elems: seq<Json>)
    requires items != [] && LaxItems(items, [93] + rest) && ItemsMean(items, elems)
    ensures ParseElems(PutItems(items, [93] + rest)) == Ok(elems, rest)
    decreases items, 1
  {
    FirstItemParses(items, rest, elems[0]);
    FirstElemParses(items, rest, elems[0]);
    assert elems == [elems[0]] + elems[1..];
    if |items| > 1 { ItemsParse(items[1..], rest, elems[1..]); } else { assert elems == [elems[0]]; }
  }

  lemma {:induction false} FirstItemParses(items: seq<Item>, rest: Bytes, v: Json)
    requires items != [] && LaxItems(items, [93] + rest) && Means(items[0].value, v)
    ensures var s := items[0].after + MoreItems(items, [93] + rest); ParseValue(Put(items[0].value, s)) == Ok(v, s)
    decreases items, 0
  {
    TextParses(items[0].value, items[0].after + MoreItems(items, [93] + rest), v);
  }

  lemma FirstElemParses(items: seq<Item>, rest: Bytes, v: Json)
    requires items != [] && LaxItems(items, [93] + rest)
    requires var s := items[0].after + MoreItems(items, [93] + rest); ParseValue(Put(items[0].value, s)) == Ok(v, s)
    ensures ParseElems(PutItems(items, [93] + rest))
      == if |items| == 1 then Ok([v], rest) else PrependElem(v, ParseElems(PutItems(items[1..], [93] + rest)))
  {
    var it, end := items[0], [93] + rest;
    var next := MoreItems(items, end);
    PutFirst(it.value, it.after + next);
    ElemParses(it.before, Put(it.value, it.after + next), v, it.after, next);
    assert end[1..] == rest;
    if |items| > 1 { assert next[1..] == PutItems(items[1..], end); }
  }

  lemma {:induction false} ObjectParses(blank: Bytes, entries: seq<Entry>, rest: Bytes, members: seq<Member>)
    requires Lax(ObjectText(blank, entries), rest) && EntriesMean(entries, members)
    ensures ParseValue(Put(ObjectText(blank, entries), rest)) == Ok(Obj(members), rest)
    decreases entries, 2
  {
    var s, end := Put(ObjectText(blank, entries), rest), [125] + rest;
    assert end[1..] == rest;
    if entries == [] {
      assert s[1..] == blank + end;
      SkipPast(blank, end);
    } else {
      var body := PutEntries(entries, end);
      assert s[1..] == body;
      EntriesFirst(entries, end);
      EntriesParse(entries, rest, members);
      MembersSkip(body);
    }
  }

  lemma EntriesFirst(entries: seq<Entry>, end: Bytes)
    requires entries != [] && LaxEntries(entries, end)
    ensures var t := Skip(PutEntries(entries, end)); t != [] && t[0] == 34
  {
    SkipPast(entries[0].before, PutQuoted(entries[0].name, AfterName(entries[0], MoreEntries(entries, end))));
  }

  lemma NameParses(e: Entry, more: Bytes)
    requires Blank(e.before) && Blank(e.mid) && Blank(e.gap) && LaxQuoted(e.name, AfterName(e, more))
    requires Lax(e.value, e.after + more)
    ensures 0 !in Decoded(e.name.chars)
    ensures ParseName(e.before + PutQuoted(e.name, AfterName(e, more)))
         == Ok(Decoded(e.name.chars), Put(e.value, e.after + more))
  {
    var value := Put(e.value, e.after + more);
    var colon := [58] + (e.gap + value);
    assert colon[1..] == e.gap + value;
    PutFirst(e.value, e.after + more);
    SkipPast(e.gap, value);
    SkipPast(e.mid, colon);
    SkipPast(e.before, PutQuoted(e.name, AfterName(e, more)));
    QuotedParses(e.name, AfterName(e, more));
  }

  // One member and what follows it.
  lemma MemberParses(s: Bytes, m: Member, value: Bytes, after: Bytes, next: Bytes)
    requires ParseName(s) == Ok(m.name, value) && ParseValue(value) == Ok(m.value, after + next)
    requires Blank(after) && next != [] && next[0] > 32
    ensures next[0] == COMMA ==> ParseMembers(s) == PrependMember(m, ParseMembers(next[1..]))
    ensures next[0] == CLOSE_OBJ ==> ParseMembers(s) == Ok([m], next[1..])
  {
    SkipPast(after, next);
    assert ParseMember(s) == Ok(m, next);
  }

  lemma {:induction false} EntriesParse(entries: seq<Entry>, rest: Bytes, members: seq<Member>)
    requires entries != [] && LaxEntries(entries, [125] + rest) && EntriesMean(entries, members)
    ensures ParseMembers(PutEntries(entries, [125] + rest)) == Ok(members, rest)
    decreases entries, 1
  {
    FirstEntryParses(entries, rest, members[0]);
    FirstMemberParses(entries, rest, members[0]);
    assert members == [members[0]] + members[1..];
    if |entries| > 1 { EntriesParse(entries[1..], rest, members[1..]); } else { assert members == [members[0]]; }
  }

  lemma {:induction false} FirstEntryParses(entries: seq<Entry>, rest: Bytes, m: Member)
    requires entries != [] && LaxEntries(entries, [125] + rest) && Means(entries[0].value, m.value)
    ensures var s := entries[0].after + MoreEntries(entries, [125] + rest);
      ParseValue(Put(entries[0].value, s)) == Ok(m.value, s)
    decreases entries, 0
  {
    TextParses(entries[0].value, entries[0].after + MoreEntries(entries, [125] + rest), m.value);
  }

  lemma FirstMemberParses(entries: seq<Entry>, rest: Bytes, m: Member)
    requires entries != [] && LaxEntries(entries, [125] + rest) && Decoded(entries[0].name.chars) == m.name
    requires var s := entries[0].after + MoreEntries(entries, [125] + rest);
      ParseValue(Put(entries[0].value, s)) == Ok(m.value, s)
    ensures ParseMembers(PutEntries(entries, [125] + rest))
      == if |entries| == 1 then Ok([m], rest)
         else PrependMember(m, ParseMembers(PutEntries(entries[1..], [125] + rest)))
  {
    var end := [125] + rest;
    var next := MoreEntries(entries, end);
    EntryParses(entries[0], m, next);
    assert end[1..] == rest;
    if |entries| > 1 { assert next[1..] == PutEntries(entries[1..], end); }
  }

  lemma EntryParses(e: Entry, m: Member, next: Bytes)
    requires Blank(e.before) && Blank(e.mid) && Blank(e.gap) && Blank(e.after)
    requires LaxQuoted(e.name, AfterName(e, next)) && Lax(e.value, e.after + next)
    requires Decoded(e.name.chars) == m.name && ParseValue(Put(e.value, e.after + next)) == Ok(m.value, e.after + next)
    requires next != [] && next[0] > 32
    ensures var s := e.before + PutQuoted(e.name, AfterName(e, next));
      && (next[0] == COMMA ==> ParseMembers(s) == PrependMember(m, ParseMembers(next[1..])))
      && (next[0] == CLOSE_OBJ ==> ParseMembers(s) == Ok([m], next[1..]))
  {
    NameParses(e, next);
    MemberParses(e.before + PutQuoted(e.name, AfterName(e, next)), m, Put(e.value, e.after + next), e.after, next);
  }

  // ----------------------------------------------------------------------------------------
  // Whatever is parsed is a text of the grammar

  lemma {:induction false} DigitsOf(s: Bytes, acc: nat) returns (digits: Bytes)
    ensures var rest := ScanDigits(s, acc).1;
      AllDigits(digits) && s == digits + rest && (rest != [] ==> !(48 <= rest[0] <= 57))
  {
    if s != [] && IsDigit(s[0]) {
      var more := DigitsOf(s[1..], 10 * acc + (s[0] - 48));
      digits := [s[0]] + more;
      assert s == [s[0]] + s[1..];
    } else {
      digits := [];
    }
  }

  lemma IntegerOf(s: Bytes) returns (digits: Bytes)
    ensures var (n, rest) := if s != [] && 49 <= s[0] <= 57 then ScanDigits(s, 0) else (0, s);
      && AllDigits(digits) && s == digits + rest && n == Decimal(digits)
      && (digits != [] ==> digits[0] != 48 && (rest != [] ==> rest[0] != 48)) && (rest != [] ==> !(49 <= rest[0] <= 57))
      && (digits == [] ==> rest == s)
  {
    if s != [] && 49 <= s[0] <= 57 {
      digits := DigitsOf(s, 0);
      DigitsParse(digits, ScanDigits(s, 0).1);
    } else {
      digits := [];
    }
  }

  // What the parser makes of what is left after a sign, a zero and digits.
  lemma PartsParsed(s: Bytes, s1: Bytes, s2: Bytes, n: int, rest: Bytes)
    requires s != [] && s1 == (if s[0] == 45 then s[1..] else s)
    requires s2 == if s1 != [] && s1[0] == 48 then s1[1..] else s1
    requires (if s2 != [] && 49 <= s2[0] <= 57 then ScanDigits(s2, 0) else (0, s2)) == (n, rest)
    requires ParseNumber(s).Ok?
    ensures rest != [] && rest[0] !in {46, 69, 101} && -0x8000_0000 <= (if s[0] == 45 then -n else n) < 0x8000_0000
    ensures ParseNumber(s) == Ok(Number(if s[0] == 45 then -n else n), rest)
  {
  }

  lemma MaybeSplit(s: Bytes, c: Byte)
    ensures var there := s != [] && s[0] == c; s == Maybe(there, c, if there then s[1..] else s)
  {
    if s != [] { assert s == [s[0]] + s[1..]; }
  }

  lemma NumberOf(s: Bytes) returns (t: Text)
    requires s != [] && (s[0] == 45 || 48 <= s[0] <= 57) && ParseNumber(s).Ok?
    ensures var r := ParseNumber(s); Lax(t, r.rest) && Means(t, r.value) && s == Put(t, r.rest)
  {
    var minus := s[0] == 45;
    var s1 := if minus then s[1..] else s;
    var zero := s1 != [] && s1[0] == 48;
    var s2 := if zero then s1[1..] else s1;
    var digits := IntegerOf(s2);
    var (n, rest) := if s2 != [] && 49 <= s2[0] <= 57 then ScanDigits(s2, 0) else (0, s2);
    PartsParsed(s, s1, s2, n, rest);
    MaybeSplit(s, 45);
    MaybeSplit(s1, 48);
    t := NumberText(minus, zero, digits);
  }

  lemma {:induction false} CharsOf(s: Bytes) returns (q: Quoted)
    requires ParseChars(s).Ok?
    ensures var r := ParseChars(s);
      LaxQuoted(q, r.rest) && s == PutChars(q.chars, Maybe(q.closed, 34, r.rest)) && Decoded(q.chars) == r.value
  {
    if s[0] == QUOTE {
      q := Quoted([], true);
      assert s == [34] + s[1..];
    } else if s[0] <= 31 {
      q := Quoted([], false);
    } else {
      var ch := if s[0] != BACKSLASH then Raw(s[0]) else Escape(s[1]);
      var n := if s[0] != BACKSLASH then 1 else 2;
      var more := CharsOf(s[n..]);
      q := More(ch, more);
      assert s == PutChar(ch) + s[n..];
    }
  }

  function More(ch: Char, q: Quoted): (r: Quoted)
    ensures r.chars != [] && r.chars[0] == ch && r.chars[1..] == q.chars && r.closed == q.closed
  { Quoted([ch] + q.chars, q.closed) }

  lemma QuotedOf(s: Bytes) returns (q: Quoted)
    requires ParseString(s).Ok?
    ensures var r := ParseString(s); LaxQuoted(q, r.rest) && s == PutQuoted(q, r.rest) && Decoded(q.chars) == r.value
  {
    q := CharsOf(s[1..]);
    assert s == [34] + s[1..];
  }

  lemma {:induction false} TextOf(s: Bytes) returns (t: Text)
    requires ParseValue(s).Ok?
    ensures var r := ParseValue(s); Lax(t, r.rest) && Means(t, r.value) && s == Put(t, r.rest)
    decreases |s|, 1
  {
    if NULL_TEXT <= s {
      t := NullText;
    } else if FALSE_TEXT <= s {
      t := FalseText;
    } else if TRUE_TEXT <= s {
      t := TrueText;
    } else if s[0] == QUOTE {
      var q := QuotedOf(s);
      t := StringText(q);
    } else if s[0] == MINUS || IsDigit(s[0]) {
      t := NumberOf(s);
    } else if s[0] == OPEN {
      t := ArrayOf(s);
    } else {
      t := ObjectOf(s);
    }
  }

  lemma {:induction false} ArrayOf(s: Bytes) returns (t: Text)
    requires s != [] && s[0] == 91 && ParseValue(s).Ok?
    ensures var r := ParseValue(s); Lax(t, r.rest) && Means(t, r.value) && s == Put(t, r.rest)
    decreases |s|, 0
  {
    var blank := SkipSplit(s[1..]);
    var body := Skip(s[1..]);
    assert s == [91] + s[1..];
    if body[0] == CLOSE {
      t := ArrayText(blank, []);
      assert body == [93] + body[1..];
    } else {
      ElemsSkip(s[1..]);
      var items := ItemsOf(s[1..]);
      t := ArrayText([], items);
    }
  }

  lemma {:induction false} ItemsOf(s: Bytes) returns (items: seq<Item>)
    requires ParseElems(s).Ok?
    ensures var r := ParseElems(s);
      items != [] && LaxItems(items, [93] + r.rest) && ItemsMean(items, r.value) && s == PutItems(items, [93] + r.rest)
    decreases |s|, 2
  {
    var before := SkipSplit(s);
    var t := TextOf(Skip(s));
    var v := ParseValue(Skip(s));
    var after := SkipSplit(v.rest);
    var next := Skip(v.rest);
    assert next == [next[0]] + next[1..];
    var it := Item(before, t, after);
    if next[0] == COMMA {
      var more := ItemsOf(next[1..]);
      items := [it] + more;
      assert items[1..] == more;
      assert ParseElems(s).value[1..] == ParseElems(next[1..]).value;
    } else {
      items := [it];
    }
  }

  lemma {:induction false} ObjectOf(s: Bytes) returns (t: Text)
    requires s != [] && s[0] == 123 && ParseValue(s).Ok?
    ensures var r := ParseValue(s); Lax(t, r.rest) && Means(t, r.value) && s == Put(t, r.rest)
    decreases |s|, 0
  {
    var blank := SkipSplit(s[1..]);
    var body := Skip(s[1..]);
    assert s == [123] + s[1..];
    if body[0] == CLOSE_OBJ {
      t := ObjectText(blank, []);
      assert body == [125] + body[1..];
    } else {
      MembersSkip(s[1..]);
      var entries := EntriesOf(s[1..]);
      t := ObjectText([], entries);
    }
  }

  // The name, the colon and the blanks of a member.
  lemma NameOf(s: Bytes) returns (before: Bytes, name: Quoted, mid: Bytes, gap: Bytes)
    requires ParseName(s).Ok?
    ensures var r := ParseName(s);
      && Blank(before) && Blank(mid) && Blank(gap) && LaxQuoted(name, mid + ([58] + (gap + r.rest)))
      && s == before + PutQuoted(name, mid + ([58] + (gap + r.rest))) && Decoded(name.chars) == r.value
  {
    before := SkipSplit(s);
    name := QuotedOf(Skip(s));
    var rest := ParseString(Skip(s)).rest;
    mid := SkipSplit(rest);
    var colon := Skip(rest);
    gap := SkipSplit(colon[1..]);
    assert colon == [58] + colon[1..];
  }

  lemma {:induction false} EntryOf(s: Bytes) returns (e: Entry)
    requires ParseMember(s).Ok?
    ensures var r := ParseMember(s);
      && Blank(e.before) && Blank(e.mid) && Blank(e.gap) && Blank(e.after)
      && LaxQuoted(e.name, AfterName(e, r.rest)) && Lax(e.value, e.after + r.rest)
      && Decoded(e.name.chars) == r.value.name && Means(e.value, r.value.value)
      && s == e.before + PutQuoted(e.name, AfterName(e, r.rest))
    decreases |s|, 2
  {
    var before, name, mid, gap := NameOf(s);
    var s' := ParseName(s).rest;
    var t := TextOf(s');
    var after := SkipSplit(ParseValue(s').rest);
    e := Entry(before, name, mid, gap, t, after);
  }

  lemma {:induction false} EntriesOf(s: Bytes) returns (entries: seq<Entry>)
    requires ParseMembers(s).Ok?
    ensures var r := ParseMembers(s);
      && entries != [] && LaxEntries(entries, [125] + r.rest)
      && EntriesMean(entries, r.value) && s == PutEntries(entries, [125] + r.rest)
    decreases |s|, 3
  {
    var e := EntryOf(s);
    var next := ParseMember(s).rest;
    assert next == [next[0]] + next[1..];
    if next[0] == COMMA {
      var more := EntriesOf(next[1..]);
      entries := [e] + more;
      EntriesCons(e, more, [125] + ParseMembers(s).rest);
      assert ParseMembers(s).value[1..] == ParseMembers(next[1..]).value;
    } else {
      entries := [e];
    }
  }

  lemma EntriesCons(e: Entry, more: seq<Entry>, end: Bytes)
    requires more != [] && LaxEntries(more, end)
    requires Blank(e.before) && Blank(e.mid) && Blank(e.gap) && Blank(e.after)
    requires var next := [44] + PutEntries(more, end);
      LaxQuoted(e.name, AfterName(e, next)) && Lax(e.value, e.after + next)
    ensures LaxEntries([e] + more, end) && ([e] + more)[1..] == more
    ensures PutEntries([e] + more, end) == e.before + PutQuoted(e.name, AfterName(e, [44] + PutEntries(more, end)))
  {
    assert ([e] + more)[1..] == more;
  }

  // ----------------------------------------------------------------------------------------
  // What the parser accepts

  /** The parser takes exactly the texts of the wider grammar, each with its value. */
  lemma AcceptsExactly(s: Bytes, v: Json, rest: Bytes)
    ensures ParseValue(s) == Ok(v, rest) <==> exists t :: Lax(t, rest) && Means(t, v) && s == Put(t, rest)
  {
    if ParseValue(s) == Ok(v, rest) {
      var t := TextOf(s);
    } else if t :| Lax(t, rest) && Means(t, v) && s == Put(t, rest) {
      TextParses(t, rest, v);
    }
  }

  /** cJSON_Parse takes exactly those after some blanks, with anything behind them. */
  lemma ParsesExactly(text: Bytes, v: Json, rest: Bytes)
    ensures Parse(text) == Ok(v, rest) <==> exists blanks: Bytes, t ::
      Blank(blanks) && Lax(t, rest) && Means(t, v) && text + [0] == blanks + Put(t, rest)
  {
    var s := text + [0];
    if Parse(text) == Ok(v, rest) {
      var blanks := SkipSplit(s);
      var t := TextOf(Skip(s));
      assert s == blanks + Put(t, rest);
    } else if blanks: Bytes, t :| Blank(blanks) && Lax(t, rest) && Means(t, v) && s == blanks + Put(t, rest) {
      PutFirst(t, rest);
      SkipPast(blanks, Put(t, rest));
      TextParses(t, rest, v);
    }
  }

  /** What must not follow a text for the parser to stop where the text ends. */
  predicate Ends(t: Text, rest: Bytes) {
    t.NumberText? ==> rest != [] && !(48 <= rest[0] <= 57) && rest[0] !in {46, 69, 101}
  }

  lemma StrictIsLax(t: Text, rest: Bytes)
    requires Strict(t) && Ends(t, rest)
    ensures Lax(t, rest)
    decreases t, 0
  {
    match t
    case ArrayText(blank, items) => if items != [] { ItemsAreLax(items, [93] + rest); }
    case ObjectText(blank, entries) => if entries != [] { EntriesAreLax(entries, [125] + rest); }
    case _ =>
  }

  lemma {:induction false} ItemsAreLax(items: seq<Item>, end: Bytes)
    requires items != [] && end != [] && end[0] == 93 && forall i | 0 <= i < |items| :: StrictItem(items[i])
    ensures LaxItems(items, end)
    decreases items, 1
  {
    var it := items[0];
    assert StrictItem(it);
    StrictIsLax(it.value, it.after + MoreItems(items, end));
    if |items| > 1 { ItemsAreLax(items[1..], end); }
  }

  lemma {:induction false} EntriesAreLax(entries: seq<Entry>, end: Bytes)
    requires entries != [] && end != [] && end[0] == 125 && forall i | 0 <= i < |entries| :: StrictEntry(entries[i])
    ensures LaxEntries(entries, end)
    decreases entries, 1
  {
    var e := entries[0];
    assert StrictEntry(e);
    StrictIsLax(e.value, e.after + MoreEntries(entries, end));
    if |entries| > 1 { EntriesAreLax(entries[1..], end); }
  }

  lemma Cat3(a: Bytes, b: Bytes, c: Bytes)
    ensures a + b + c == a + (b + c)
  {
  }

  // What follows a text can be put there later.
  lemma {:induction false} PutMore(t: Text, a: Bytes, b: Bytes)
    ensures Put(t, a) + b == Put(t, a + b)
    decreases t, 0
  {
    match t
    case NullText => Cat3([110, 117, 108, 108], a, b);
    case FalseText => Cat3([102, 97, 108, 115, 101], a, b);
    case TrueText => Cat3([116, 114, 117, 101], a, b);
    case NumberText(minus, zero, digits) => NumberMore(minus, zero, digits, a, b);
    case StringText(q) => QuotedMore(q, a, b);
    case ArrayText(blank, items) =>
      Cat3([93], a, b);
      if items == [] { Cat3(blank, [93] + a, b); } else { ItemsMore(items, [93] + a, b); }
      Cat3([91], if items == [] then blank + ([93] + a) else PutItems(items, [93] + a), b);
    case ObjectText(blank, entries) =>
      Cat3([125], a, b);
      if entries == [] { Cat3(blank, [125] + a, b); } else { EntriesMore(entries, [125] + a, b); }
      Cat3([123], if entries == [] then blank + ([125] + a) else PutEntries(entries, [125] + a), b);
  }

  lemma NumberMore(minus: bool, zero: bool, digits: Bytes, a: Bytes, b: Bytes)
    ensures Maybe(minus, 45, Maybe(zero, 48, digits + a)) + b == Maybe(minus, 45, Maybe(zero, 48, digits + (a + b)))
  {
    Cat3(digits, a, b);
    if zero { Cat3([48], digits + a, b); }
    if minus { Cat3([45], Maybe(zero, 48, digits + a), b); }
  }

  lemma {:induction false} CharsMore(chars: seq<Char>, a: Bytes, b: Bytes)
    ensures PutChars(chars, a) + b == PutChars(chars, a + b)
  {
    if chars != [] {
      CharsMore(chars[1..], a, b);
      Cat3(PutChar(chars[0]), PutChars(chars[1..], a), b);
    }
  }

  lemma QuotedMore(q: Quoted, a: Bytes, b: Bytes)
    ensures PutQuoted(q, a) + b == PutQuoted(q, a + b)
  {
    CharsMore(q.chars, Maybe(q.closed, 34, a), b);
    if q.closed { Cat3([34], a, b); }
    Cat3([34], PutChars(q.chars, Maybe(q.closed, 34, a)), b);
  }

  lemma {:induction false} ItemsMore(items: seq<Item>, a: Bytes, b: Bytes)
    requires items != []
    ensures PutItems(items, a) + b == PutItems(items, a + b)
    decreases items, 1
  {
    var it, next := items[0], MoreItems(items, a);
    if |items| > 1 {
      ItemsMore(items[1..], a, b);
      Cat3([44], PutItems(items[1..], a), b);
    }
    Cat3(it.after, next, b);
    PutMore(it.value, it.after + next, b);
    Cat3(it.before, Put(it.value, it.after + next), b);
  }

  lemma {:induction false} EntriesMore(entries: seq<Entry>, a: Bytes, b: Bytes)
    requires entries != []
    ensures PutEntries(entries, a) + b == PutEntries(entries, a + b)
    decreases entries, 1
  {
    var e, next := entries[0], MoreEntries(entries, a);
    if |entries| > 1 {
      EntriesMore(entries[1..], a, b);
      Cat3([44], PutEntries(entries[1..], a), b);
    }
    AfterNameMore(e, next, b);
    QuotedMore(e.name, AfterName(e, next), b);
    Cat3(e.before, PutQuoted(e.name, AfterName(e, next)), b);
  }

  lemma {:induction false} AfterNameMore(e: Entry, a: Bytes, b: Bytes)
    ensures AfterName(e, a) + b == AfterName(e, a + b)
    decreases e
  {
    var value := Put(e.value, e.after + a);
    Cat3(e.after, a, b);
    PutMore(e.value, e.after + a, b);
    Cat3(e.gap, value, b);
    Cat3([58], e.gap + value, b);
    Cat3(e.mid, [58] + (e.gap + value), b);
  }

  /** Every JSON text of the subset is parsed to its value, up to the blanks that follow it. */
  lemma JsonParses(text: Bytes, v: Json)
    requires IsJson(text, v)
    ensures exists after: Bytes | Whitespace(after) :: Parse(text) == Ok(v, after + [0])
  {
    var before: Bytes, t: Text, after: Bytes :|
      Whitespace(before) && Strict(t) && Means(t, v) && Whitespace(after) && text == before + Put(t, after);
    var rest := after + [0];
    PutMore(t, after, [0]);
    assert text + [0] == before + Put(t, rest);
    StrictIsLax(t, rest);
    assert Blank(before) && Lax(t, rest) && Means(t, v) && text + [0] == before + Put(t, rest);
    ParsesExactly(text, v, rest);
  }
}
