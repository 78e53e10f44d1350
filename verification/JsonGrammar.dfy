/**
 The texts of JSON, byte by byte: the grammar of RFC 8259 for the part that moxi's printer and parser
 share (sections 2 to 5 and 7, and the integers of section 6, without \u escapes), the wider
 grammar that the parser accepts, and the layout that the printer chooses.  A text is described by
 its syntax tree, which has every blank and every escape.
 */
module JsonGrammar {
  import opened CJson

  datatype Char = Raw(c: Byte) | Escape(letter: Byte)

  /** A string; the parser also takes one that a control character ends instead of a quote. */
  datatype Quoted = Quoted(chars: seq<Char>, closed: bool)

  datatype Text =
    | NullText
    | FalseText
    | TrueText
    | NumberText(minus: bool, zero: bool, digits: Bytes)
    | StringText(q: Quoted)
    | ArrayText(blank: Bytes, items: seq<Item>)
    | ObjectText(blank: Bytes, entries: seq<Entry>)
  datatype Item = Item(before: Bytes, value: Text, after: Bytes)
  datatype Entry = Entry(before: Bytes, name: Quoted, mid: Bytes, gap: Bytes, value: Text, after: Bytes)

  // ----------------------------------------------------------------------------------------
  // The bytes

  /** The text followed by `rest`. */
  function Put(t: Text, rest: Bytes): Bytes
    decreases t
  {
    match t
    case NullText => [110, 117, 108, 108] + rest
    case FalseText => [102, 97, 108, 115, 101] + rest
    case TrueText => [116, 114, 117, 101] + rest
    case NumberText(minus, zero, digits) => Maybe(minus, 45, Maybe(zero, 48, digits + rest))
    case StringText(q) => PutQuoted(q, rest)
    case ArrayText(blank, items) => [91] + if items == [] then blank + ([93] + rest) else PutItems(items, [93] + rest)
    case ObjectText(blank, entries) =>
      [123] + if entries == [] then blank + ([125] + rest) else PutEntries(entries, [125] + rest)
  }

  function Maybe(there: bool, c: Byte, rest: Bytes): Bytes { if there then [c] + rest else rest }

  function PutItems(items: seq<Item>, end: Bytes): Bytes
    requires items != []
    decreases items, 1
  { items[0].before + Put(items[0].value, items[0].after + MoreItems(items, end)) }

  /** What follows the first element. */
  function MoreItems(items: seq<Item>, end: Bytes): Bytes
    requires items != []
    decreases items, 0
  { if |items| == 1 then end else [44] + PutItems(items[1..], end) }

  function PutEntries(entries: seq<Entry>, end: Bytes): Bytes
    requires entries != []
    decreases entries, 1
  { entries[0].before + PutQuoted(entries[0].name, AfterName(entries[0], MoreEntries(entries, end))) }

  function AfterName(e: Entry, more: Bytes): Bytes
    decreases e
  { e.mid + ([58] + (e.gap + Put(e.value, e.after + more))) }

  /** What follows the first member. */
  function MoreEntries(entries: seq<Entry>, end: Bytes): Bytes
    requires entries != []
    decreases entries, 0
  { if |entries| == 1 then end else [44] + PutEntries(entries[1..], end) }

  function PutQuoted(q: Quoted, rest: Bytes): Bytes { [34] + PutChars(q.chars, Maybe(q.closed, 34, rest)) }

  function PutChars(chars: seq<Char>, rest: Bytes): Bytes {
    if chars == [] then rest else PutChar(chars[0]) + PutChars(chars[1..], rest)
  }

  function PutChar(ch: Char): Bytes { match ch case Raw(c) => [c] case Escape(letter) => [92, letter] }

  // ----------------------------------------------------------------------------------------
  // The meaning

  function Decimal(digits: Bytes): int {
    if digits == [] then 0 else 10 * Decimal(digits[..|digits| - 1]) + (digits[|digits| - 1] as int - 48)
  }

  function Decode(ch: Char): Byte {
    match ch
    case Raw(c) => c
    case Escape(letter) =>
      match letter
      case 98 => 8
      case 102 => 12
      case 110 => 10
      case 114 => 13
      case 116 => 9
      case _ => letter
  }

  function Decoded(chars: seq<Char>): (s: Bytes)
    ensures |s| == |chars|
  { if chars == [] then [] else [Decode(chars[0])] + Decoded(chars[1..]) }

  predicate Means(t: Text, v: Json)
    decreases t
  {
    match t
    case NullText => v == Null
    case FalseText => v == False
    case TrueText => v == True
    case NumberText(minus, _, digits) => v.Number? && v.n == if minus then -Decimal(digits) else Decimal(digits)
    case StringText(q) => v.Str? && v.s == Decoded(q.chars)
    case ArrayText(_, items) => v.Arr? && ItemsMean(items, v.elems)
    case ObjectText(_, entries) => v.Obj? && EntriesMean(entries, v.members)
  }

  predicate ItemsMean(items: seq<Item>, elems: seq<Json>)
    decreases items
  {
    && |items| == |elems|
    && (items != [] ==> Means(items[0].value, elems[0]) && ItemsMean(items[1..], elems[1..]))
  }

  predicate EntriesMean(entries: seq<Entry>, members: seq<Member>)
    decreases entries
  {
    && |entries| == |members|
    && (entries != [] ==>
          && Decoded(entries[0].name.chars) == members[0].name && Means(entries[0].value, members[0].value)
          && EntriesMean(entries[1..], members[1..]))
  }

  // ----------------------------------------------------------------------------------------
  // RFC 8259

  predicate Whitespace(s: Bytes) { forall i | 0 <= i < |s| :: s[i] in {32, 9, 10, 13} }

  predicate StrictChar(ch: Char) {
    match ch
    case Raw(c) => c >= 32 && c != 34 && c != 92
    case Escape(letter) => letter in {34, 92, 47, 98, 102, 110, 114, 116}
  }

  predicate StrictQuoted(q: Quoted) { q.closed && forall i | 0 <= i < |q.chars| :: StrictChar(q.chars[i]) }

  predicate AllDigits(s: Bytes) { forall i | 0 <= i < |s| :: 48 <= s[i] <= 57 }

  predicate Strict(t: Text)
    decreases t
  {
    match t
    case NumberText(_, zero, digits) =>
      AllDigits(digits) && if zero then digits == [] else digits != [] && digits[0] != 48
    case StringText(q) => StrictQuoted(q)
    case ArrayText(blank, items) => Whitespace(blank) && forall i | 0 <= i < |items| :: StrictItem(items[i])
    case ObjectText(blank, entries) => Whitespace(blank) && forall i | 0 <= i < |entries| :: StrictEntry(entries[i])
    case _ => true
  }

  predicate StrictItem(it: Item)
    decreases it
  { Whitespace(it.before) && Strict(it.value) && Whitespace(it.after) }

  predicate StrictEntry(e: Entry)
    decreases e
  {
    && Whitespace(e.before) && StrictQuoted(e.name) && Whitespace(e.mid)
    && Whitespace(e.gap) && Strict(e.value) && Whitespace(e.after)
  }

  /** The bytes are a JSON text of the value, between blanks. */
  ghost predicate IsJson(text: Bytes, v: Json) {
    exists before: Bytes, t: Text, after: Bytes ::
      Whitespace(before) && Strict(t) && Means(t, v) && Whitespace(after) && text == before + Put(t, after)
  }

  // ----------------------------------------------------------------------------------------
  // What the parser accepts

  predicate Blank(s: Bytes) { forall i | 0 <= i < |s| :: s[i] <= 32 }

  predicate LaxChar(ch: Char) {
    match ch
    case Raw(c) => c > 31 && c != 34 && c != 92
    case Escape(letter) => letter != 0 && letter != 117
  }

  predicate LaxChars(chars: seq<Char>) { forall i | 0 <= i < |chars| :: LaxChar(chars[i]) }

  predicate LaxQuoted(q: Quoted, rest: Bytes) {
    LaxChars(q.chars) && (q.closed || (rest != [] && rest[0] <= 31))
  }

  /** A sign, a zero and digits that do not start with one, each of which may be missing but not all; no
      digit that could be taken with them follows, and no fraction or exponent. */
  predicate LaxNumber(minus: bool, zero: bool, digits: Bytes, rest: Bytes) {
    && AllDigits(digits) && (minus || zero || digits != []) && (digits != [] ==> digits[0] != 48)
    && rest != [] && rest[0] !in {46, 69, 101}
    && !(49 <= rest[0] <= 57) && (digits != [] || !zero ==> rest[0] != 48)
  }

  predicate Lax(t: Text, rest: Bytes)
    decreases t
  {
    match t
    case NumberText(minus, zero, digits) => LaxNumber(minus, zero, digits, rest)
    case StringText(q) => LaxQuoted(q, rest)
    case ArrayText(blank, items) => if items == [] then Blank(blank) else LaxItems(items, [93] + rest)
    case ObjectText(blank, entries) => if entries == [] then Blank(blank) else LaxEntries(entries, [125] + rest)
    case _ => true
  }

  predicate LaxItems(items: seq<Item>, end: Bytes)
    requires items != []
    decreases items
  {
    var it := items[0];
    && Blank(it.before) && Blank(it.after) && Lax(it.value, it.after + MoreItems(items, end))
    && (|items| > 1 ==> LaxItems(items[1..], end))
  }

  predicate LaxEntries(entries: seq<Entry>, end: Bytes)
    requires entries != []
    decreases entries
  {
    var e := entries[0];
    && Blank(e.before) && Blank(e.mid) && Blank(e.gap) && Blank(e.after)
    && LaxQuoted(e.name, AfterName(e, MoreEntries(entries, end)))
    && Lax(e.value, e.after + MoreEntries(entries, end))
    && (|entries| > 1 ==> LaxEntries(entries[1..], end))
  }

  // ----------------------------------------------------------------------------------------
  // What the printer chooses

  /** No blanks in unformatted text; in formatted text a line end and tabs before each name and before
      the closing brace, a tab after a colon, and a space after a comma between elements.  Only what
      must be escaped is, and zero has no sign. */
  predicate Laid(t: Text, depth: nat, fmt: bool)
    decreases t
  {
    match t
    case NumberText(minus, zero, _) => minus ==> !zero
    case StringText(q) => LaidQuoted(q)
    case ArrayText(blank, items) => blank == [] && LaidItems(items, depth + 1, fmt, true)
    case ObjectText(blank, entries) =>
      blank == (if entries == [] then Indent(depth, fmt) else []) && LaidEntries(entries, depth + 1, fmt)
    case _ => true
  }

  predicate LaidQuoted(q: Quoted) {
    forall i | 0 <= i < |q.chars| && q.chars[i].Escape? :: q.chars[i].letter in {34, 92, 98, 102, 110, 114, 116}
  }

  function Indent(depth: nat, fmt: bool): Bytes { if fmt then [10] + seq(depth, _ => 9) else [] }

  predicate LaidItems(items: seq<Item>, depth: nat, fmt: bool, first: bool)
    decreases items
  {
    items != [] ==>
      && items[0].before == (if fmt && !first then [32] else []) && items[0].after == []
      && Laid(items[0].value, depth, fmt) && LaidItems(items[1..], depth, fmt, false)
  }

  predicate LaidEntries(entries: seq<Entry>, depth: nat, fmt: bool)
    requires depth > 0
    decreases entries
  {
    entries != [] ==>
      && entries[0].before == Indent(depth, fmt) && LaidQuoted(entries[0].name)
      && entries[0].mid == [] && entries[0].gap == (if fmt then [9] else [])
      && Laid(entries[0].value, depth, fmt)
      && entries[0].after == (if |entries| == 1 then Indent(depth - 1, fmt) else [])
      && LaidEntries(entries[1..], depth, fmt)
  }
}
