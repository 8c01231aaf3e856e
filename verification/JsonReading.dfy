/** Unique readability of canonical JSON: the text determines the value, up to the order in which
    an object's members were inserted. */
module JsonReading {
  import opened Json

  // ---------------------------------------------------------------- JSON values

  predicate NumeralUnit(u: Unit) {
    0x30 <= u <= 0x39 || u == 0x2B || u == 0x2D || u == 0x2E || u == 0x65
  }

  /** What every numeral printed by JSON.stringify has in common: a digit or a minus sign comes
      first, and only digits, signs, a point or an exponent mark follow. */
  predicate Numeral(n: Text) {
    n != [] && (n[0] == 0x2D || 0x30 <= n[0] <= 0x39) && forall i :: 0 <= i < |n| ==> NumeralUnit(n[i])
  }

  predicate DistinctKeys(ms: seq<Member>) {
    forall i, j :: 0 <= i < j < |ms| ==> ms[i].key != ms[j].key
  }

  predicate WellFormed(j: Json) {
    match j
    case Num(n) => Numeral(n)
    case Arr(items) => forall i :: 0 <= i < |items| ==> WellFormed(items[i])
    case Obj(ms) => DistinctKeys(ms) && forall i :: 0 <= i < |ms| ==> WellFormed(ms[i].value)
    case _ => true
  }

  ghost function Keys(ms: seq<Member>): set<Text> {
    set i | 0 <= i < |ms| :: ms[i].key
  }

  /** Equality of JSON values that ignores the order of an object's members. */
  ghost predicate SameJson(v: Json, w: Json) {
    match (v, w)
    case (Arr(a), Arr(b)) => |a| == |b| && forall i :: 0 <= i < |a| ==> SameJson(a[i], b[i])
    case (Obj(a), Obj(b)) =>
      && Keys(a) == Keys(b)
      && forall i, j :: 0 <= i < |a| && 0 <= j < |b| && a[i].key == b[j].key ==> SameJson(a[i].value, b[j].value)
    case _ => v == w
  }

  // ---------------------------------------------------------------- strings

  lemma HexDigitInjective(d: int, e: int)
    requires 0 <= d < 16 && 0 <= e < 16 && HexDigit(d) == HexDigit(e)
    ensures d == e
  {}

  lemma Digits(u: Unit)
    ensures u == 0x1000 * (u / 0x1000) + 0x100 * (u / 0x100 % 0x10) + 0x10 * (u / 0x10 % 0x10) + u % 0x10
  {
    var a := u / 0x10;
    var b := a / 0x10;
    assert b == u / 0x100;
    assert b / 0x10 == u / 0x1000;
  }

  lemma Hex4Injective(u: Unit, v: Unit)
    requires Hex4(u) == Hex4(v)
    ensures u == v
  {
    HexDigitInjective(u / 0x1000, v / 0x1000) by { assert Hex4(u)[0] == Hex4(v)[0]; }
    HexDigitInjective(u / 0x100 % 0x10, v / 0x100 % 0x10) by { assert Hex4(u)[1] == Hex4(v)[1]; }
    HexDigitInjective(u / 0x10 % 0x10, v / 0x10 % 0x10) by { assert Hex4(u)[2] == Hex4(v)[2]; }
    HexDigitInjective(u % 0x10, v % 0x10) by { assert Hex4(u)[3] == Hex4(v)[3]; }
    Digits(u);
    Digits(v);
  }

  /** The part of s that one step of Escape consumes, and its text. */
  function Head(s: Text): nat
    requires s != []
  {
    if |s| > 1 && IsHigh(s[0]) && IsLow(s[1]) then 2 else 1
  }

  function HeadText(s: Text): Text
    requires s != []
  {
    if Head(s) == 2 then s[..2] else EscapeUnit(s[0])
  }

  lemma EscapeHead(s: Text)
    requires s != []
    ensures Escape(s) == HeadText(s) + Escape(s[Head(s)..])
    ensures HeadText(s) != [] && HeadText(s)[0] != QUOTE
  {}

  lemma SameHead(s: Text, t: Text, x: Text, y: Text)
    requires s != [] && t != []
    requires HeadText(s) + x == HeadText(t) + y
    ensures Head(s) == Head(t) && s[..Head(s)] == t[..Head(t)] && x == y
  {
    var a, b := HeadText(s) + x, HeadText(t) + y;
    assert a[0] == HeadText(s)[0] && b[0] == HeadText(t)[0];
    if a[0] == BACKSLASH {
      assert a[1] == HeadText(s)[1] && b[1] == HeadText(t)[1];
      if a[1] == 0x75 {
        assert HeadText(s) == [BACKSLASH, 0x75] + Hex4(s[0]) && HeadText(t) == [BACKSLASH, 0x75] + Hex4(t[0]);
        assert a[2..6] == Hex4(s[0]) && b[2..6] == Hex4(t[0]);
        Hex4Injective(s[0], t[0]);
        assert x == a[6..] && y == b[6..];
      } else {
        assert x == a[2..] && y == b[2..];
      }
    } else if IsHigh(a[0]) {
      assert a[1] == HeadText(s)[1] && b[1] == HeadText(t)[1];
      assert x == a[2..] && y == b[2..];
    } else {
      assert x == a[1..] && y == b[1..];
    }
  }

  lemma EscapeSplit(s: Text, x: Text)
    requires s != []
    ensures Escape(s) + [QUOTE] + x == HeadText(s) + (Escape(s[Head(s)..]) + [QUOTE] + x)
    ensures (Escape(s) + [QUOTE] + x)[0] != QUOTE
  {
    EscapeHead(s);
    var rest := Escape(s[Head(s)..]);
    assert (HeadText(s) + rest) + [QUOTE] + x == HeadText(s) + (rest + [QUOTE] + x);
  }

  lemma {:induction false} ReadEscape(s: Text, t: Text, x: Text, y: Text)
    requires Escape(s) + [QUOTE] + x == Escape(t) + [QUOTE] + y
    ensures s == t && x == y
    decreases |s|
  {
    if s == [] {
      assert (Escape(s) + [QUOTE] + x)[0] == QUOTE;
      if t != [] { EscapeSplit(t, y); }
      assert x == (Escape(s) + [QUOTE] + x)[1..];
      assert t == [] ==> y == (Escape(t) + [QUOTE] + y)[1..];
    } else if t == [] {
      assert (Escape(t) + [QUOTE] + y)[0] == QUOTE;
      EscapeSplit(s, x);
    } else {
      EscapeSplit(s, x);
      EscapeSplit(t, y);
      var s', t' := s[Head(s)..], t[Head(t)..];
      SameHead(s, t, Escape(s') + [QUOTE] + x, Escape(t') + [QUOTE] + y);
      ReadEscape(s', t', x, y);
      assert s == s[..Head(s)] + s' && t == t[..Head(t)] + t';
    }
  }

  lemma ReadQuote(s: Text, t: Text, x: Text, y: Text)
    requires Quote(s) + x == Quote(t) + y
    ensures s == t && x == y
  {
    assert Quote(s) + x == [QUOTE] + (Escape(s) + [QUOTE] + x);
    assert Quote(t) + y == [QUOTE] + (Escape(t) + [QUOTE] + y);
    assert (Quote(s) + x)[1..] == Escape(s) + [QUOTE] + x;
    assert (Quote(t) + y)[1..] == Escape(t) + [QUOTE] + y;
    ReadEscape(s, t, x, y);
  }

  // ---------------------------------------------------------------- prefix freedom

  /** The text that may follow a value: nothing, or a separator. */
  predicate Ends(s: Text) {
    s == [] || s[0] == COMMA || s[0] == CLOSE_BRACKET || s[0] == CLOSE_BRACE
  }

  /** How many numeral units a text starts with. */
  function Span(t: Text): nat {
    if t == [] || !NumeralUnit(t[0]) then 0 else 1 + Span(t[1..])
  }

  lemma {:induction false} SpanOfNumeral(n: Text, s: Text)
    requires Ends(s) && forall i :: 0 <= i < |n| ==> NumeralUnit(n[i])
    ensures Span(n + s) == |n|
  {
    if n == [] {
      assert n + s == s;
    } else {
      SpanOfNumeral(n[1..], s);
      assert (n + s)[1..] == n[1..] + s;
    }
  }

  lemma ReadNumeral(m: Text, n: Text, s: Text, t: Text)
    requires Numeral(m) && Numeral(n) && Ends(s) && Ends(t) && m + s == n + t
    ensures m == n && s == t
  {
    SpanOfNumeral(m, s);
    SpanOfNumeral(n, t);
    assert m == (m + s)[..|m|] && n == (n + t)[..|n|];
    assert s == (m + s)[|m|..] && t == (n + t)[|n|..];
  }

  /** The first unit of a value's text tells which kind of value it is. */
  function Kind(u: Unit): nat {
    if u == NULL[0] then 0
    else if u == TRUE[0] then 1
    else if u == FALSE[0] then 2
    else if u == QUOTE then 4
    else if u == OPEN_BRACKET then 5
    else if u == OPEN_BRACE then 6
    else 3
  }

  function KindOf(j: Json): nat {
    match j
    case Null => 0
    case Bool(b) => if b then 1 else 2
    case Num(_) => 3
    case Str(_) => 4
    case Arr(_) => 5
    case Obj(_) => 6
  }

  lemma FirstUnit(j: Json)
    requires WellFormed(j)
    ensures Canonical(j) != [] && Kind(Canonical(j)[0]) == KindOf(j)
    ensures Canonical(j)[0] != CLOSE_BRACKET && Canonical(j)[0] != CLOSE_BRACE
  {}

  // ---------------------------------------------------------------- sorting

  lemma InsertMembers(m: Member, ms: seq<Member>)
    ensures multiset(InsertByKey(m, ms)) == multiset(ms) + multiset{m}
  {
    if ms == [] || Less(m.key, ms[0].key) {
    } else {
      InsertMembers(m, ms[1..]);
      assert ms == [ms[0]] + ms[1..];
    }
  }

  lemma SortMembers(ms: seq<Member>)
    ensures multiset(SortByKey(ms)) == multiset(ms)
  {
    if ms != [] {
      SortMembers(ms[1..]);
      InsertMembers(ms[0], SortByKey(ms[1..]));
      assert ms == [ms[0]] + ms[1..];
    }
  }

  /** Two lists with the same members have the same keys, distinct in both or in neither. */
  lemma SameMembers(a: seq<Member>, b: seq<Member>)
    requires multiset(a) == multiset(b)
    ensures forall m :: m in a <==> m in b
    ensures Keys(a) == Keys(b)
  {
    forall m ensures m in a <==> m in b {
      assert m in a <==> m in multiset(a);
      assert m in b <==> m in multiset(b);
    }
    forall k ensures k in Keys(a) <==> k in Keys(b) {
      if k in Keys(a) { var i :| 0 <= i < |a| && a[i].key == k; assert a[i] in b; }
      if k in Keys(b) { var i :| 0 <= i < |b| && b[i].key == k; assert b[i] in a; }
    }
  }

  /** A sorted list in which no key is repeated. */
  predicate Ascending(ms: seq<Member>) {
    forall i, j :: 0 <= i < j < |ms| ==> Less(ms[i].key, ms[j].key)
  }

  lemma {:induction false} LessTotal(a: Text, b: Text)
    ensures Less(a, b) || Less(b, a) || a == b
    ensures !Less(a, a) && !(Less(a, b) && Less(b, a))
  {
    if a != [] {
      LessTotal(a[1..], a[1..]);
    }
    if a != [] && b != [] {
      LessTotal(a[1..], b[1..]);
      assert a == [a[0]] + a[1..] && b == [b[0]] + b[1..];
    }
  }

  lemma {:induction false} LessTransitive(a: Text, b: Text, c: Text)
    requires Less(a, b) && Less(b, c)
    ensures Less(a, c)
  {
    if a != [] && a[0] == b[0] == c[0] {
      LessTransitive(a[1..], b[1..], c[1..]);
    }
  }

  lemma {:induction false} InsertAscending(m: Member, ms: seq<Member>)
    requires Ascending(ms) && forall i :: 0 <= i < |ms| ==> ms[i].key != m.key
    ensures Ascending(InsertByKey(m, ms))
  {
    if ms == [] {
    } else if Less(m.key, ms[0].key) {
      forall i | 1 <= i < |ms| ensures Less(m.key, ms[i].key) { LessTransitive(m.key, ms[0].key, ms[i].key); }
    } else {
      InsertAscending(m, ms[1..]);
      var rest := InsertByKey(m, ms[1..]);
      InsertMembers(m, ms[1..]);
      forall i | 0 <= i < |rest| ensures Less(ms[0].key, rest[i].key) {
        assert rest[i] in multiset(rest);
        LessTotal(m.key, ms[0].key);
      }
    }
  }

  lemma {:induction false} SortAscending(ms: seq<Member>)
    requires DistinctKeys(ms)
    ensures Ascending(SortByKey(ms))
  {
    if ms != [] {
      SortAscending(ms[1..]);
      SortMembers(ms[1..]);
      var sorted := SortByKey(ms[1..]);
      SameMembers(sorted, ms[1..]);
      forall i | 0 <= i < |sorted| ensures sorted[i].key != ms[0].key {
        assert sorted[i] in ms[1..];
      }
      InsertAscending(ms[0], SortByKey(ms[1..]));
    }
  }

  lemma SortDistinct(ms: seq<Member>)
    requires DistinctKeys(ms)
    ensures DistinctKeys(SortByKey(ms))
  {
    SortAscending(ms);
    forall k: Text ensures !Less(k, k) { LessTotal(k, k); }
  }

  // ---------------------------------------------------------------- reading back

  /** What reading establishes of two sorted member lists. */
  ghost predicate SameInOrder(a: seq<Member>, b: seq<Member>) {
    |a| == |b| && forall i :: 0 <= i < |a| ==> a[i].key == b[i].key && SameJson(a[i].value, b[i].value)
  }

  /** Reordering both sides of a list of equal members keeps the equality that ignores order. */
  lemma SameUpToOrder(ms: seq<Member>, ns: seq<Member>, a: seq<Member>, b: seq<Member>)
    requires multiset(a) == multiset(ms) && multiset(b) == multiset(ns) && DistinctKeys(b)
    requires SameInOrder(a, b)
    ensures Keys(ms) == Keys(ns)
    ensures forall i, j :: 0 <= i < |ms| && 0 <= j < |ns| && ms[i].key == ns[j].key
              ==> SameJson(ms[i].value, ns[j].value)
  {
    SameMembers(a, ms);
    SameMembers(b, ns);
    assert Keys(a) == Keys(b) by {
      assert forall i :: 0 <= i < |a| ==> a[i].key == b[i].key;
    }
    forall i, j | 0 <= i < |ms| && 0 <= j < |ns| && ms[i].key == ns[j].key
      ensures SameJson(ms[i].value, ns[j].value)
    {
      assert ms[i] in a && ns[j] in b;
      var p :| 0 <= p < |a| && a[p] == ms[i];
      var q :| 0 <= q < |b| && b[q] == ns[j];
      assert a[p].key == b[p].key && b[p].key == b[q].key;
    }
  }

  lemma SortedSame(ms: seq<Member>, ns: seq<Member>)
    requires DistinctKeys(ms) && DistinctKeys(ns)
    requires SameInOrder(SortByKey(ms), SortByKey(ns))
    ensures SameJson(Obj(ms), Obj(ns))
  {
    SortMembers(ms);
    SortMembers(ns);
    SortDistinct(ns);
    SameUpToOrder(ms, ns, SortByKey(ms), SortByKey(ns));
  }

  predicate WellFormedMembers(ms: seq<Member>) {
    forall i :: 0 <= i < |ms| ==> WellFormed(ms[i].value)
  }

  lemma WellFormedSorted(ms: seq<Member>)
    requires WellFormedMembers(ms)
    ensures WellFormedMembers(SortByKey(ms))
  {
    SortMembers(ms);
    SameMembers(SortByKey(ms), ms);
    forall i | 0 <= i < |SortByKey(ms)| ensures WellFormed(SortByKey(ms)[i].value) {
      assert SortByKey(ms)[i] in ms;
    }
  }

  /** Prefix freedom: a text starts with the canonical text of at most one value, and ends its
      reading at one place. */
  lemma {:induction false} ReadValue(v: Json, w: Json, s: Text, t: Text)
    requires WellFormed(v) && WellFormed(w) && Ends(s) && Ends(t)
    requires Canonical(v) + s == Canonical(w) + t
    ensures SameJson(v, w) && s == t
    decreases Size(v), 1
  {
    FirstUnit(v);
    FirstUnit(w);
    assert (Canonical(v) + s)[0] == Canonical(v)[0] && (Canonical(w) + t)[0] == Canonical(w)[0];
    match v
    case Num(m) => ReadNumeral(m, w.numeral, s, t);
    case Str(x) => ReadQuote(x, w.text, s, t);
    case Arr(a) =>
      var x, y := [CLOSE_BRACKET] + s, [CLOSE_BRACKET] + t;
      Bracketed(OPEN_BRACKET, CanonicalItems(a), CLOSE_BRACKET, s);
      Bracketed(OPEN_BRACKET, CanonicalItems(w.items), CLOSE_BRACKET, t);
      ReadItems(a, w.items, x, y);
      assert s == x[1..] && t == y[1..];
    case Obj(ms) =>
      ReadObject(ms, w.members, s, t);
    case _ =>
      assert s == (Canonical(v) + s)[|Canonical(v)|..] && t == (Canonical(w) + t)[|Canonical(w)|..];
  }

  lemma Bracketed(open: Unit, body: Text, close: Unit, s: Text)
    ensures ([open] + body + [close] + s)[1..] == body + ([close] + s)
  {}

  lemma {:induction false} ReadObject(ms: seq<Member>, ns: seq<Member>, s: Text, t: Text)
    requires WellFormed(Obj(ms)) && WellFormed(Obj(ns)) && Ends(s) && Ends(t)
    requires Canonical(Obj(ms)) + s == Canonical(Obj(ns)) + t
    ensures SameJson(Obj(ms), Obj(ns)) && s == t
    decreases Size(Obj(ms)), 0
  {
    SortKeepsSize(ms);
    WellFormedSorted(ms);
    WellFormedSorted(ns);
    var a, b := SortByKey(ms), SortByKey(ns);
    var x, y := [CLOSE_BRACE] + s, [CLOSE_BRACE] + t;
    Bracketed(OPEN_BRACE, CanonicalMembers(a), CLOSE_BRACE, s);
    Bracketed(OPEN_BRACE, CanonicalMembers(b), CLOSE_BRACE, t);
    ReadMembers(a, b, x, y);
    SortedSame(ms, ns);
    assert s == x[1..] && t == y[1..];
  }

  /** A list of items, read up to the bracket that closes it. */
  lemma {:induction false} ReadItems(a: seq<Json>, b: seq<Json>, s: Text, t: Text)
    requires forall i :: 0 <= i < |a| ==> WellFormed(a[i])
    requires forall i :: 0 <= i < |b| ==> WellFormed(b[i])
    requires s != [] && s[0] == CLOSE_BRACKET && t != [] && t[0] == CLOSE_BRACKET
    requires CanonicalItems(a) + s == CanonicalItems(b) + t
    ensures |a| == |b| && (forall i :: 0 <= i < |a| ==> SameJson(a[i], b[i])) && s == t
    decreases SizeItems(a), 0
  {
    ItemsStart(a, s);
    ItemsStart(b, t);
    if a != [] && b != [] {
      var x, y := ItemsRest(a, s), ItemsRest(b, t);
      ReadValue(a[0], b[0], x, y);
      if |a| > 1 {
        assert CanonicalItems(a[1..]) + s == x[1..] && CanonicalItems(b[1..]) + t == y[1..];
        ReadItems(a[1..], b[1..], s, t);
        assert forall i :: 1 <= i < |a| ==> a[i] == a[1..][i - 1] && b[i] == b[1..][i - 1];
      }
    } else {
      assert a == [] && b == [];
      assert CanonicalItems(a) + s == s && CanonicalItems(b) + t == t;
    }
  }

  /** What follows the first item of a non-empty list. */
  function ItemsRest(a: seq<Json>, s: Text): Text
    requires a != []
  {
    if |a| == 1 then s else [COMMA] + (CanonicalItems(a[1..]) + s)
  }

  lemma Regroup(a: Text, b: Text, c: Text, d: Text)
    ensures a + b + c + d == a + (b + (c + d))
  {}

  lemma FirstOf(a: Text, b: Text)
    requires a != []
    ensures a + b != [] && (a + b)[0] == a[0]
  {}

  lemma ItemsStart(a: seq<Json>, s: Text)
    requires forall i :: 0 <= i < |a| ==> WellFormed(a[i])
    requires s != [] && s[0] == CLOSE_BRACKET
    ensures a != [] ==> CanonicalItems(a) + s == Canonical(a[0]) + ItemsRest(a, s) && Ends(ItemsRest(a, s))
    ensures CanonicalItems(a) + s != [] && (a == [] <==> (CanonicalItems(a) + s)[0] == CLOSE_BRACKET)
  {
    if a == [] {
      assert CanonicalItems(a) + s == s;
    } else {
      FirstUnit(a[0]);
      FirstOf(Canonical(a[0]), ItemsRest(a, s));
      if |a| > 1 {
        Regroup(Canonical(a[0]), [COMMA], CanonicalItems(a[1..]), s);
      }
    }
  }

  function MembersRest(a: seq<Member>, s: Text): Text
    requires a != []
  {
    if |a| == 1 then s else [COMMA] + (CanonicalMembers(a[1..]) + s)
  }

  lemma MembersStart(a: seq<Member>, s: Text)
    requires s != [] && s[0] == CLOSE_BRACE
    ensures a != [] ==>
      && CanonicalMembers(a) + s == Quote(a[0].key) + ([COLON] + (Canonical(a[0].value) + MembersRest(a, s)))
      && Ends(MembersRest(a, s))
    ensures CanonicalMembers(a) + s != [] && (a == [] <==> (CanonicalMembers(a) + s)[0] == CLOSE_BRACE)
  {
    if a == [] {
      assert CanonicalMembers(a) + s == s;
    } else {
      var k, c, r := Quote(a[0].key), Canonical(a[0].value), MembersRest(a, s);
      if |a| > 1 {
        Regroup(CanonicalMember(a[0]), [COMMA], CanonicalMembers(a[1..]), s);
      }
      assert CanonicalMembers(a) + s == CanonicalMember(a[0]) + r;
      Regroup(k, [COLON], c, r);
      FirstOf(k, [COLON] + (c + r));
    }
  }

  lemma {:induction false} ReadMembers(a: seq<Member>, b: seq<Member>, s: Text, t: Text)
    requires WellFormedMembers(a) && WellFormedMembers(b)
    requires s != [] && s[0] == CLOSE_BRACE && t != [] && t[0] == CLOSE_BRACE
    requires CanonicalMembers(a) + s == CanonicalMembers(b) + t
    ensures SameInOrder(a, b) && s == t
    decreases SizeMembers(a), 0
  {
    MembersStart(a, s);
    MembersStart(b, t);
    if a != [] && b != [] {
      var x, y := MembersRest(a, s), MembersRest(b, t);
      var vx, vy := Canonical(a[0].value) + x, Canonical(b[0].value) + y;
      ReadQuote(a[0].key, b[0].key, [COLON] + vx, [COLON] + vy);
      assert vx == ([COLON] + vx)[1..] && vy == ([COLON] + vy)[1..];
      ReadValue(a[0].value, b[0].value, x, y);
      if |a| > 1 {
        assert CanonicalMembers(a[1..]) + s == x[1..] && CanonicalMembers(b[1..]) + t == y[1..];
        ReadMembers(a[1..], b[1..], s, t);
        assert forall i :: 1 <= i < |a| ==> a[i] == a[1..][i - 1] && b[i] == b[1..][i - 1];
      }
    } else {
      assert a == [] && b == [];
      assert CanonicalMembers(a) + s == s && CanonicalMembers(b) + t == t;
    }
  }

  // ---------------------------------------------------------------- equal values print alike

  lemma TailKeys(a: seq<Member>)
    requires a != [] && Ascending(a)
    ensures Keys(a[1..]) == Keys(a) - {a[0].key}
    ensures forall k :: k in Keys(a) ==> k == a[0].key || Less(a[0].key, k)
  {
    forall k ensures k in Keys(a[1..]) <==> k in Keys(a) - {a[0].key} {
      LessTotal(k, k);
      if k in Keys(a[1..]) { var i :| 0 <= i < |a[1..]| && a[1..][i].key == k; assert a[i + 1].key == k; }
      if k in Keys(a) - {a[0].key} { var i :| 0 <= i < |a| && a[i].key == k; assert a[1..][i - 1].key == k; }
    }
  }

  lemma {:induction false} AscendingUnique(a: seq<Member>, b: seq<Member>)
    requires Ascending(a) && Ascending(b) && Keys(a) == Keys(b)
    ensures |a| == |b| && forall i :: 0 <= i < |a| ==> a[i].key == b[i].key
  {
    assert b != [] ==> b[0].key in Keys(b);
    if a != [] {
      assert a[0].key in Keys(a);
      var j :| 0 <= j < |b| && b[j].key == a[0].key;
      assert b[0].key in Keys(b);
      TailKeys(a);
      TailKeys(b);
      LessTotal(a[0].key, b[0].key);
      AscendingUnique(a[1..], b[1..]);
      assert forall i :: 1 <= i < |a| ==> a[i] == a[1..][i - 1] && b[i] == b[1..][i - 1];
    }
  }

  lemma SortedInOrder(ms: seq<Member>, ns: seq<Member>)
    requires DistinctKeys(ms) && DistinctKeys(ns) && SameJson(Obj(ms), Obj(ns))
    ensures SameInOrder(SortByKey(ms), SortByKey(ns))
  {
    var a, b := SortByKey(ms), SortByKey(ns);
    SortMembers(ms);
    SortMembers(ns);
    SameMembers(a, ms);
    SameMembers(b, ns);
    SortAscending(ms);
    SortAscending(ns);
    AscendingUnique(a, b);
    forall i | 0 <= i < |a| ensures SameJson(a[i].value, b[i].value) {
      assert a[i] in ms && b[i] in ns;
      var p :| 0 <= p < |ms| && ms[p] == a[i];
      var q :| 0 <= q < |ns| && ns[q] == b[i];
      assert ms[p].key == ns[q].key;
    }
  }

  lemma {:induction false} SameText(v: Json, w: Json)
    requires WellFormed(v) && WellFormed(w) && SameJson(v, w)
    ensures Canonical(v) == Canonical(w)
    decreases Size(v), 1
  {
    match v
    case Arr(a) => SameItems(a, w.items);
    case Obj(ms) =>
      SortKeepsSize(ms);
      WellFormedSorted(ms);
      WellFormedSorted(w.members);
      SortedInOrder(ms, w.members);
      SameMemberText(SortByKey(ms), SortByKey(w.members));
    case _ =>
  }

  lemma {:induction false} SameItems(a: seq<Json>, b: seq<Json>)
    requires |a| == |b|
    requires forall i :: 0 <= i < |a| ==> WellFormed(a[i]) && WellFormed(b[i]) && SameJson(a[i], b[i])
    ensures CanonicalItems(a) == CanonicalItems(b)
    decreases SizeItems(a), 0
  {
    if a != [] {
      SameText(a[0], b[0]);
      SameItems(a[1..], b[1..]);
    }
  }

  lemma {:induction false} SameMemberText(a: seq<Member>, b: seq<Member>)
    requires WellFormedMembers(a) && WellFormedMembers(b) && SameInOrder(a, b)
    ensures CanonicalMembers(a) == CanonicalMembers(b)
    decreases SizeMembers(a), 0
  {
    if a != [] {
      SameText(a[0].value, b[0].value);
      SameMemberText(a[1..], b[1..]);
    }
  }

  // ---------------------------------------------------------------- main result

  /** Two JSON values have the same canonical text exactly when they differ at most in the order of
      their objects' members. */
  lemma UniquelyReadable(v: Json, w: Json)
    requires WellFormed(v) && WellFormed(w)
    ensures Canonical(v) == Canonical(w) <==> SameJson(v, w)
  {
    if Canonical(v) == Canonical(w) {
      ReadValue(v, w, [], []);
    }
    if SameJson(v, w) {
      SameText(v, w);
    }
  }
}
