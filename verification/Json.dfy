/** JSON values and their canonical text, as protocol.js prints them.
    A JavaScript string is a sequence of UTF-16 code units, and may hold lone surrogates. */
module Json {

  type Unit = u: int | 0 <= u < 0x1_0000
  type Text = seq<Unit>

  datatype Member = Member(key: Text, value: Json)

  /** A number is carried by the numeral that JSON.stringify prints for it; an object lists its
      members in insertion order. */
  datatype Json =
    | Null
    | Bool(value: bool)
    | Num(numeral: Text)
    | Str(text: Text)
    | Arr(items: seq<Json>)
    | Obj(members: seq<Member>)

  const QUOTE: Unit := 0x22
  const COMMA: Unit := 0x2C
  const COLON: Unit := 0x3A
  const OPEN_BRACKET: Unit := 0x5B
  const BACKSLASH: Unit := 0x5C
  const CLOSE_BRACKET: Unit := 0x5D
  const OPEN_BRACE: Unit := 0x7B
  const CLOSE_BRACE: Unit := 0x7D
  const TRUE: Text := [0x74, 0x72, 0x75, 0x65]
  const FALSE: Text := [0x66, 0x61, 0x6C, 0x73, 0x65]
  const NULL: Text := [0x6E, 0x75, 0x6C, 0x6C]

  // ---------------------------------------------------------------- strings

  predicate IsHigh(u: Unit) { 0xD800 <= u < 0xDC00 }

  predicate IsLow(u: Unit) { 0xDC00 <= u < 0xE000 }

  function HexDigit(d: int): Unit
    requires 0 <= d < 16
  {
    if d < 10 then 0x30 + d else 0x57 + d
  }

  function Hex4(u: Unit): Text {
    [HexDigit(u / 0x1000), HexDigit(u / 0x100 % 0x10), HexDigit(u / 0x10 % 0x10), HexDigit(u % 0x10)]
  }

  /** The escape of one code unit that is not half of a surrogate pair. */
  function EscapeUnit(u: Unit): Text {
    if u == 0x08 then [BACKSLASH, 0x62]
    else if u == 0x09 then [BACKSLASH, 0x74]
    else if u == 0x0A then [BACKSLASH, 0x6E]
    else if u == 0x0C then [BACKSLASH, 0x66]
    else if u == 0x0D then [BACKSLASH, 0x72]
    else if u == QUOTE || u == BACKSLASH then [BACKSLASH, u]
    else if u < 0x20 || IsHigh(u) || IsLow(u) then [BACKSLASH, 0x75] + Hex4(u)
    else [u]
  }

  function Escape(s: Text): Text {
    if s == [] then []
    else if |s| > 1 && IsHigh(s[0]) && IsLow(s[1]) then s[..2] + Escape(s[2..])
    else EscapeUnit(s[0]) + Escape(s[1..])
  }

  function Quote(s: Text): Text {
    [QUOTE] + Escape(s) + [QUOTE]
  }

  // ---------------------------------------------------------------- key order

  /** The order in which Array.prototype.sort puts two strings: by code units. */
  predicate Less(a: Text, b: Text) {
    b != [] && (a == [] || a[0] < b[0] || (a[0] == b[0] && Less(a[1..], b[1..])))
  }

  function InsertByKey(m: Member, ms: seq<Member>): seq<Member> {
    if ms == [] || Less(m.key, ms[0].key) then [m] + ms else [ms[0]] + InsertByKey(m, ms[1..])
  }

  function SortByKey(ms: seq<Member>): seq<Member> {
    if ms == [] then [] else InsertByKey(ms[0], SortByKey(ms[1..]))
  }

  // ---------------------------------------------------------------- canonical text

  function Size(j: Json): nat {
    match j
    case Arr(items) => 1 + SizeItems(items)
    case Obj(members) => 1 + SizeMembers(members)
    case _ => 1
  }

  function SizeItems(items: seq<Json>): nat {
    if items == [] then 0 else 1 + Size(items[0]) + SizeItems(items[1..])
  }

  function SizeMembers(ms: seq<Member>): nat {
    if ms == [] then 0 else 1 + Size(ms[0].value) + SizeMembers(ms[1..])
  }

  lemma SortKeepsSize(ms: seq<Member>)
    ensures SizeMembers(SortByKey(ms)) == SizeMembers(ms)
  {
    if ms != [] {
      SortKeepsSize(ms[1..]);
      InsertSize(ms[0], SortByKey(ms[1..]));
    }
  }

  lemma InsertSize(m: Member, ms: seq<Member>)
    ensures SizeMembers(InsertByKey(m, ms)) == 1 + Size(m.value) + SizeMembers(ms)
  {
    if ms == [] || Less(m.key, ms[0].key) {
      assert ([m] + ms)[1..] == ms;
    } else {
      InsertSize(m, ms[1..]);
      assert ([ms[0]] + InsertByKey(m, ms[1..]))[1..] == InsertByKey(m, ms[1..]);
    }
  }

  function Canonical(j: Json): Text
    decreases Size(j), 1
  {
    match j
    case Null => NULL
    case Bool(b) => if b then TRUE else FALSE
    case Num(n) => n
    case Str(s) => Quote(s)
    case Arr(items) => [OPEN_BRACKET] + CanonicalItems(items) + [CLOSE_BRACKET]
    case Obj(members) =>
      SortKeepsSize(members);
      [OPEN_BRACE] + CanonicalMembers(SortByKey(members)) + [CLOSE_BRACE]
  }

  function CanonicalItems(items: seq<Json>): Text
    decreases SizeItems(items), 0
  {
    if items == [] then []
    else if |items| == 1 then Canonical(items[0])
    else Canonical(items[0]) + [COMMA] + CanonicalItems(items[1..])
  }

  function CanonicalMember(m: Member): Text
    decreases Size(m.value), 2
  {
    Quote(m.key) + [COLON] + Canonical(m.value)
  }

  function CanonicalMembers(ms: seq<Member>): Text
    decreases SizeMembers(ms), 0
  {
    if ms == [] then []
    else if |ms| == 1 then CanonicalMember(ms[0])
    else CanonicalMember(ms[0]) + [COMMA] + CanonicalMembers(ms[1..])
  }
}
