/** The HAL source scanner of hal-module-runtime.js: source text as a sequence of tokens and the
    gaps between them, and the cursor loop that finds them. */
module HalScanner {
  import opened Options

  /** A token with its place in the source. */
  datatype Token = Token(start: nat, end: nat, value: string)

  /** Source text falls into tokens and the text between them: one white-space character, a
      comment, or a string literal. */
  datatype Piece = Gap(text: string) | Word(text: string)

  // ---------------------------------------------------------------- characters

  predicate IsWhitespace(c: char) {
    var n := c as int;
    || 0x09 <= n <= 0x0D || n == 0x20 || n == 0xA0 || n == 0x1680 || 0x2000 <= n <= 0x200A
    || n == 0x2028 || n == 0x2029 || n == 0x202F || n == 0x205F || n == 0x3000 || n == 0xFEFF
  }

  predicate IsDelimiter(c: char) {
    c in "()[]{}'`~^@,"
  }

  /** A character that ends a symbol. */
  predicate Breaks(c: char) {
    IsWhitespace(c) || c == ';' || c == '"' || IsDelimiter(c)
  }

  predicate IsSymbol(s: string) {
    s != "" && forall i :: 0 <= i < |s| ==> !Breaks(s[i])
  }

  // ---------------------------------------------------------------- reference lexer

  /** Length of the rest of a comment, up to its newline or the end of the source. */
  function CommentRest(s: string): (n: nat)
    ensures n <= |s|
  {
    if s == "" || s[0] == '\n' then 0 else 1 + CommentRest(s[1..])
  }

  /** Length of the rest of a string literal with its closing quote; None if it is never closed. */
  function LiteralRest(s: string): (n: Option<nat>)
    ensures n.Some? ==> 1 <= n.value <= |s|
  {
    if s == "" then None
    else if s[0] == '"' then Some(1)
    else
      var step := if s[0] == '\\' then 2 else 1;
      if |s| < step then None
      else
        match LiteralRest(s[step..])
        case None => None
        case Some(n) => Some(step + n)
  }

  function SymbolLength(s: string): (n: nat)
    ensures n <= |s| && (s != "" && !Breaks(s[0]) ==> n > 0)
  {
    if s == "" || Breaks(s[0]) then 0 else 1 + SymbolLength(s[1..])
  }

  /** The piece that a non-empty text starts with. */
  function FirstPiece(s: string): (p: Option<Piece>)
    requires s != ""
    ensures p.Some? ==> p.value.text != "" && p.value.text <= s
  {
    if IsWhitespace(s[0]) then Some(Gap(s[..1]))
    else if s[0] == ';' then Some(Gap(s[..1 + CommentRest(s[1..])]))
    else if s[0] == '"' then
      match LiteralRest(s[1..])
      case None => None
      case Some(n) => Some(Gap(s[..1 + n]))
    else if IsDelimiter(s[0]) then Some(Word(s[..1]))
    else Some(Word(s[..SymbolLength(s)]))
  }

  /** The pieces of a whole source; None if a string literal is left open. */
  function Lex(s: string): Option<seq<Piece>>
    decreases |s|
  {
    if s == "" then Some([])
    else
      match FirstPiece(s)
      case None => None
      case Some(p) =>
        match Lex(s[|p.text|..])
        case None => None
        case Some(ps) => Some([p] + ps)
  }

  function Flatten(ps: seq<Piece>): string {
    if ps == [] then "" else ps[0].text + Flatten(ps[1..])
  }

  function TokenOf(p: Piece, at: nat): seq<Token> {
    if p.Word? then [Token(at, at + |p.text|, p.text)] else []
  }

  /** The tokens among the pieces, placed as they lie from offset `at` on. */
  function TokensAt(ps: seq<Piece>, at: nat): seq<Token> {
    if ps == [] then []
    else
      var end := at + |ps[0].text|;
      TokenOf(ps[0], at) + TokensAt(ps[1..], end)
  }

  function Words(ps: seq<Piece>): seq<string> {
    if ps == [] then []
    else (if ps[0].Word? then [ps[0].text] else []) + Words(ps[1..])
  }

  // ---------------------------------------------------------------- grammar

  predicate IsComment(t: string, next: string) {
    t != "" && t[0] == ';' && '\n' !in t && (next == "" || next[0] == '\n')
  }

  predicate IsLiteral(t: string) {
    t != "" && t[0] == '"' && LiteralRest(t[1..]) == Some(|t| - 1)
  }

  /** Whether p is a piece when the text `next` follows it. */
  predicate IsPiece(p: Piece, next: string) {
    match p
    case Gap(t) => (|t| == 1 && IsWhitespace(t[0])) || IsComment(t, next) || IsLiteral(t)
    case Word(t) => (|t| == 1 && IsDelimiter(t[0])) || (IsSymbol(t) && (next == "" || Breaks(next[0])))
  }

  /** Each piece is one when followed by all the later ones. */
  predicate Splits(ps: seq<Piece>) {
    ps == [] || (IsPiece(ps[0], Flatten(ps[1..])) && Splits(ps[1..]))
  }

  // ---------------------------------------------------------------- the lexer decides the grammar

  lemma {:induction false} CommentRestIs(t: string, next: string)
    requires '\n' !in t && (next == "" || next[0] == '\n')
    ensures CommentRest(t + next) == |t|
  {
    if t == "" {
      assert t + next == next;
    } else {
      assert (t + next)[0] == t[0] && t[0] in t;
      CommentRestIs(t[1..], next);
      assert (t + next)[1..] == t[1..] + next;
    }
  }

  lemma {:induction false} CommentRestEnds(s: string)
    ensures '\n' !in s[..CommentRest(s)]
    ensures CommentRest(s) == |s| || s[CommentRest(s)] == '\n'
  {
    if s != "" && s[0] != '\n' {
      CommentRestEnds(s[1..]);
      assert s[..CommentRest(s)] == [s[0]] + s[1..][..CommentRest(s[1..])];
    }
  }

  lemma {:induction false} LiteralRestIs(t: string, next: string)
    requires LiteralRest(t) == Some(|t|)
    ensures LiteralRest(t + next) == Some(|t|)
  {
    var step := if t[0] == '\\' then 2 else 1;
    assert (t + next)[0] == t[0];
    if t[0] != '"' {
      LiteralRestIs(t[step..], next);
      assert (t + next)[step..] == t[step..] + next;
    }
  }

  lemma {:induction false} LiteralRestCuts(s: string)
    requires LiteralRest(s).Some?
    ensures LiteralRest(s[..LiteralRest(s).value]) == LiteralRest(s)
  {
    var n := LiteralRest(s).value;
    var step := if s[0] == '\\' then 2 else 1;
    assert s[..n][0] == s[0];
    if s[0] != '"' {
      LiteralRestCuts(s[step..]);
      assert s[..n][step..] == s[step..][..n - step];
    }
  }

  lemma {:induction false} SymbolLengthIs(t: string, next: string)
    requires forall i :: 0 <= i < |t| ==> !Breaks(t[i])
    requires next == "" || Breaks(next[0])
    ensures SymbolLength(t + next) == |t|
  {
    if t == "" {
      assert t + next == next;
    } else {
      assert (t + next)[0] == t[0];
      SymbolLengthIs(t[1..], next);
      assert (t + next)[1..] == t[1..] + next;
    }
  }

  lemma {:induction false} SymbolLengthEnds(s: string)
    ensures forall i :: 0 <= i < SymbolLength(s) ==> !Breaks(s[i])
    ensures SymbolLength(s) == |s| || Breaks(s[SymbolLength(s)])
  {
    if s != "" && !Breaks(s[0]) {
      SymbolLengthEnds(s[1..]);
      assert forall i :: 1 <= i < SymbolLength(s) ==> s[i] == s[1..][i - 1];
    }
  }

  lemma BreaksKinds(c: char)
    ensures IsWhitespace(c) ==> c != ';' && c != '"' && !IsDelimiter(c)
    ensures IsDelimiter(c) ==> c != ';' && c != '"' && !IsWhitespace(c)
  {}

  lemma PieceIsFirst(p: Piece, next: string)
    requires IsPiece(p, next)
    ensures p.text != "" && FirstPiece(p.text + next) == Some(p)
  {
    var t := p.text;
    var s := t + next;
    assert s[0] == t[0] && s[1..] == t[1..] + next && s[..|t|] == t;
    BreaksKinds(t[0]);
    if p.Gap? {
      if IsComment(t, next) {
        CommentRestIs(t[1..], next);
      } else if IsLiteral(t) {
        LiteralRestIs(t[1..], next);
      }
    } else if IsSymbol(t) {
      SymbolLengthIs(t, next);
    }
  }

  lemma FirstIsPiece(s: string)
    requires s != "" && FirstPiece(s).Some?
    ensures var p := FirstPiece(s).value; IsPiece(p, s[|p.text|..])
  {
    if IsWhitespace(s[0]) {
    } else if s[0] == ';' {
      CommentRestEnds(s[1..]);
      assert s[..1 + CommentRest(s[1..])] == [s[0]] + s[1..][..CommentRest(s[1..])];
    } else if s[0] == '"' {
      LiteralRestCuts(s[1..]);
      var n := LiteralRest(s[1..]).value;
      assert s[..1 + n][1..] == s[1..][..n];
    } else if !IsDelimiter(s[0]) {
      SymbolLengthEnds(s);
    }
  }

  /** The lexer finds the pieces of a source exactly when they split it, so there is at most one
      way to split a source. */
  lemma {:induction false} LexSplits(s: string, ps: seq<Piece>)
    ensures Lex(s) == Some(ps) <==> Splits(ps) && Flatten(ps) == s
    decreases |s| + |ps|
  {
    if ps == [] {
    } else {
      if Lex(s) == Some(ps) {
        FirstIsPiece(s);
        var p := FirstPiece(s).value;
        assert ps[0] == p && ps[1..] == Lex(s[|p.text|..]).value;
        LexSplits(s[|p.text|..], ps[1..]);
        assert s == p.text + s[|p.text|..];
      }
      if Splits(ps) && Flatten(ps) == s {
        PieceIsFirst(ps[0], Flatten(ps[1..]));
        assert s[|ps[0].text|..] == Flatten(ps[1..]);
        LexSplits(s[|ps[0].text|..], ps[1..]);
        assert ps == [ps[0]] + ps[1..];
      }
    }
  }

  // ---------------------------------------------------------------- scanTokens

  datatype ScanResult = Scanned(tokens: seq<Token>) | UnterminatedString

  lemma {:induction false} FlattenAppend(ps: seq<Piece>, p: Piece)
    ensures Flatten(ps + [p]) == Flatten(ps) + p.text
  {
    if ps == [] {
      assert ps + [p] == [p] && [p][1..] == [];
    } else {
      FlattenAppend(ps[1..], p);
      assert (ps + [p])[1..] == ps[1..] + [p];
      assert ps[0].text + (Flatten(ps[1..]) + p.text) == (ps[0].text + Flatten(ps[1..])) + p.text;
    }
  }

  lemma {:induction false} TokensAppend(ps: seq<Piece>, p: Piece, at: nat)
    ensures TokensAt(ps + [p], at) == TokensAt(ps, at) + TokenOf(p, at + |Flatten(ps)|)
  {
    if ps == [] {
      assert ps + [p] == [p] && [p][1..] == [];
    } else {
      var end := at + |ps[0].text|;
      TokensAppend(ps[1..], p, end);
      assert (ps + [p])[1..] == ps[1..] + [p];
      var a, b, c := TokenOf(ps[0], at), TokensAt(ps[1..], end), TokenOf(p, end + |Flatten(ps[1..])|);
      assert a + (b + c) == (a + b) + c;
    }
  }

  /** The scan of a source with pieces `whole` has read the pieces `done` and stands at `index`. */
  ghost predicate ScanState(source: string, whole: Option<seq<Piece>>, index: nat, done: seq<Piece>,
          tokens: seq<Token>) {
    && index <= |source| && |Flatten(done)| == index && tokens == TokensAt(done, 0)
    && whole == Prefixed(done, Lex(source[index..]))
  }

  lemma ScanStarts(source: string)
    ensures ScanState(source, Lex(source), 0, [], [])
  {
    assert source[0..] == source;
    assert Lex(source).Some? ==> [] + Lex(source).value == Lex(source).value;
  }

  lemma LexPrefix(whole: Option<seq<Piece>>, done: seq<Piece>, s: string)
    requires s != "" && whole == Prefixed(done, Lex(s))
    ensures FirstPiece(s).None? ==> whole.None?
    ensures FirstPiece(s).Some? ==>
      var p := FirstPiece(s).value;
      whole == Prefixed(done + [p], Lex(s[|p.text|..]))
  {
    if FirstPiece(s).Some? {
      var p := FirstPiece(s).value;
      var rest := Lex(s[|p.text|..]);
      if rest.Some? {
        assert done + ([p] + rest.value) == (done + [p]) + rest.value;
      }
    }
  }

  lemma ScanAdvances(source: string, whole: Option<seq<Piece>>, at: nat, done: seq<Piece>, tokens: seq<Token>,
          p: Option<Piece>)
    requires ScanState(source, whole, at, done, tokens) && at < |source| && p == FirstPiece(source[at..])
    ensures p.None? ==> whole.None?
    ensures p.Some? ==> p.value.text != ""
    ensures p.Some? ==> ScanState(source, whole, at + |p.value.text|, done + [p.value], tokens + TokenOf(p.value, at))
  {
    LexPrefix(whole, done, source[at..]);
    if p.Some? {
      FlattenAppend(done, p.value);
      TokensAppend(done, p.value, 0);
      assert source[at..][|p.value.text|..] == source[at + |p.value.text|..];
    }
  }

  lemma ScanEnds(source: string, whole: Option<seq<Piece>>, done: seq<Piece>, tokens: seq<Token>)
    requires ScanState(source, whole, |source|, done, tokens)
    ensures whole == Some(done) && tokens == TokensAt(done, 0)
  {
    assert source[|source|..] == "" && done + [] == done;
  }

  ghost function Prefixed(done: seq<Piece>, rest: Option<seq<Piece>>): Option<seq<Piece>> {
    if rest.None? then None else Some(done + rest.value)
  }

  /** Skips a comment from the character after its semicolon. */
  method CommentEnd(source: string, start: nat) returns (index: nat)
    requires start <= |source|
    ensures index == start + CommentRest(source[start..])
  {
    index := start;
    while index < |source| && source[index] != '\n'
      invariant start <= index <= |source|
      invariant CommentRest(source[start..]) == index - start + CommentRest(source[index..])
    {
      index := index + 1;
    }
  }

  /** After n characters of a literal's rest s, `left` is still to be read. */
  ghost predicate LiteralStep(s: string, n: nat, left: string) {
    match LiteralRest(left)
    case None => LiteralRest(s).None?
    case Some(k) => LiteralRest(s) == Some(n + k)
  }

  /** Skips a string literal from the character after its opening quote. */
  method LiteralEnd(source: string, start: nat) returns (closed: bool, index: nat)
    requires start <= |source|
    ensures closed <==> LiteralRest(source[start..]).Some?
    ensures closed ==> index == start + LiteralRest(source[start..]).value
  {
    index := start;
    closed := false;
    while index < |source|
      invariant start <= index
      invariant index <= |source| ==> LiteralStep(source[start..], index - start, source[index..])
      invariant index > |source| ==> LiteralRest(source[start..]).None?
      decreases |source| - index
    {
      if source[index] == '\\' {
        index := index + 2;
        continue;
      }
      if source[index] == '"' {
        index := index + 1;
        closed := true;
        break;
      }
      index := index + 1;
    }
  }

  /** Reads a symbol to its last character. */
  method SymbolEnd(source: string, start: nat) returns (index: nat)
    requires start <= |source|
    ensures index == start + SymbolLength(source[start..])
  {
    index := start;
    while index < |source| && !Breaks(source[index])
      invariant start <= index <= |source|
      invariant SymbolLength(source[start..]) == index - start + SymbolLength(source[index..])
    {
      index := index + 1;
    }
  }

  /** One turn of the scan: skips a gap or reads a token. An open string literal ends the scan. */
  method ScanPiece(source: string, start: nat) returns (closed: bool, index: nat, tokens: seq<Token>,
          ghost p: Option<Piece>)
    requires start < |source|
    ensures p == FirstPiece(source[start..])
    ensures closed <==> p.Some?
    ensures closed ==> index == start + |p.value.text| && tokens == TokenOf(p.value, start)
  {
    var character := source[start];
    closed, index, tokens := true, start + 1, [];
    p := FirstPiece(source[start..]);
    assert source[start..][1..] == source[start + 1..];
    if IsWhitespace(character) {
    } else if character == ';' {
      index := CommentEnd(source, start + 1);
    } else if character == '"' {
      closed, index := LiteralEnd(source, start + 1);
    } else if IsDelimiter(character) {
      tokens := [Token(start, start + 1, [character])];
      assert source[start..][..1] == [character];
    } else {
      index := SymbolEnd(source, start);
      if start == index {
        assert false;
      }
      tokens := [Token(start, index, source[start..index])];
      assert source[start..][..index - start] == source[start..index];
    }
  }

  /** One round of the scan. */
  method ScanStep(source: string, ghost whole: Option<seq<Piece>>, start: nat, ghost done: seq<Piece>,
          tokens: seq<Token>)
    returns (closed: bool, index: nat, found: seq<Token>, ghost next: seq<Piece>)
    requires ScanState(source, whole, start, done, tokens) && start < |source|
    ensures closed ==> start < index <= |source| && ScanState(source, whole, index, next, tokens + found)
    ensures !closed ==> whole.None?
  {
    ghost var p;
    closed, index, found, p := ScanPiece(source, start);
    ScanAdvances(source, whole, start, done, tokens, p);
    next := if closed then done + [p.value] else done;
  }

  /** The scan returns the tokens of the source in their places, or rejects an open string literal;
      no other outcome is possible. */
  method ScanTokens(source: string) returns (result: ScanResult)
    ensures result.Scanned? <==> Lex(source).Some?
    ensures result.Scanned? ==> result.tokens == TokensAt(Lex(source).value, 0)
  {
    var tokens: seq<Token> := [];
    var index: nat := 0;
    ghost var whole, done: seq<Piece> := Lex(source), [];
    ScanStarts(source);
    while index < |source|
      invariant index <= |source| && ScanState(source, whole, index, done, tokens)
      decreases |source| - index
    {
      var closed, end, found;
      ghost var next;
      closed, end, found, next := ScanStep(source, whole, index, done, tokens);
      if !closed {
        return UnterminatedString;
      }
      done := next;
      tokens := tokens + found;
      index := end;
    }
    ScanEnds(source, whole, done, tokens);
    return Scanned(tokens);
  }
}
