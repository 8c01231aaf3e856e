/** Moving a module's namespaces under a generation root, as hal-module-runtime.js does it: the
    rewriting of source text, and what it preserves. */
module HalRewriter {
  import opened Options
  import opened HalScanner

  type Mapping = map<string, string>

  // ---------------------------------------------------------------- names

  predicate IsLowerOrDigit(c: char) {
    'a' <= c <= 'z' || '0' <= c <= '9'
  }

  predicate NamespaceChar(s: string, i: nat)
    requires i < |s|
  {
    IsLowerOrDigit(s[i]) || s[i] == '-' || (s[i] == '.' && i + 1 < |s| && IsLowerOrDigit(s[i + 1]))
  }

  /** A namespace: dot-separated segments of lower-case letters, digits and dashes, each starting
      with a letter or digit and the first with a letter. */
  predicate IsNamespace(s: string) {
    s != "" && 'a' <= s[0] <= 'z' && forall i :: 0 <= i < |s| ==> NamespaceChar(s, i)
  }

  predicate AppIdChar(s: string, i: nat)
    requires i < |s|
  {
    IsLowerOrDigit(s[i]) || ((s[i] == '.' || s[i] == '-') && i + 1 < |s| && IsLowerOrDigit(s[i + 1]))
  }

  /** An app id: runs of lower-case letters and digits, joined by single dots or dashes. */
  predicate IsAppId(s: string) {
    s != "" && IsLowerOrDigit(s[0]) && forall i :: 0 <= i < |s| ==> AppIdChar(s, i)
  }

  function Decimal(n: nat): (s: string)
    ensures s != "" && forall i :: 0 <= i < |s| ==> '0' <= s[i] <= '9'
  {
    var digit := [(n % 10) as char + '0'];
    if n < 10 then digit else Decimal(n / 10) + digit
  }

  function Root(id: string, generation: nat): string {
    "app." + id + ".g" + Decimal(generation)
  }

  function Target(root: string, name: string): string {
    root + "." + name
  }

  function MappingFor(root: string, names: set<string>): Mapping {
    map name | name in names :: Target(root, name)
  }

  /** Position of the first slash, or the length of the text if it has none. */
  function Slash(s: string): (n: nat)
    ensures n <= |s| && '/' !in s[..n] && (n < |s| ==> s[n] == '/')
  {
    if s == "" || s[0] == '/' then 0
    else
      assert forall n: nat :: n <= |s| - 1 ==> s[..n + 1] == [s[0]] + s[1..][..n];
      1 + Slash(s[1..])
  }

  predicate StartsWith(s: string, prefix: string) {
    prefix <= s
  }

  predicate IsKeyword(value: string) {
    StartsWith(value, ":")
  }

  /** The namespace that a token names, if it is not a keyword. */
  function TokenNamespace(value: string): Option<string> {
    if value == "" || IsKeyword(value) then None
    else if 0 < Slash(value) < |value| then Some(value[..Slash(value)])
    else Some(value)
  }

  /** The part of a token after its last slash. */
  function BaseName(value: string): string
    decreases |value|
  {
    if Slash(value) == |value| then value else BaseName(value[Slash(value) + 1..])
  }

  // ---------------------------------------------------------------- accepted sources

  const DYNAMIC_NAMESPACE_SYMBOLS: set<string> :=
    { "alias", "create-ns", "eval", "in-ns", "intern", "load-string", "ns-resolve", "remove-ns", "resolve" }

  predicate BoundedToken(value: string) {
    && BaseName(value) !in DYNAMIC_NAMESPACE_SYMBOLS
    && match TokenNamespace(value)
       case None => true
       case Some(target) =>
         !StartsWith(target, "gw.os") && !StartsWith(target, "app.") && !StartsWith(target, "std.native")
  }

  /** The rules a module's source must keep: one leading ns form of the expected name, and no
      symbol that would reach outside the module. */
  predicate Bounded(words: seq<string>, name: string) {
    && |words| >= 4 && words[0] == "(" && words[1] == "ns" && words[2] == name
    && (forall i :: 1 <= i < |words| - 1 ==> !(words[i] == "(" && words[i + 1] == "ns"))
    && (forall i :: 0 <= i < |words| && i != 1 ==> BoundedToken(words[i]))
  }

  /** A source that the runtime stages under the name of its resource. */
  predicate Accepted(source: string, name: string) {
    Lex(source).Some? && Bounded(Words(Lex(source).value), name)
  }

  // ---------------------------------------------------------------- rewriting

  function RewriteToken(value: string, mapping: Mapping): string {
    if value == "" || IsKeyword(value) then value
    else if value in mapping && mapping[value] != "" then mapping[value]
    else
      var separator := Slash(value);
      if 0 < separator < |value| && value[..separator] in mapping && mapping[value[..separator]] != ""
      then mapping[value[..separator]] + value[separator..]
      else value
  }

  function RewritePiece(p: Piece, mapping: Mapping): Piece {
    match p
    case Gap(_) => p
    case Word(t) => Word(RewriteToken(t, mapping))
  }

  /** The pieces of the rewritten source: tokens renamed, gaps as they were. */
  function RewritePieces(ps: seq<Piece>, mapping: Mapping): (qs: seq<Piece>)
    ensures |qs| == |ps|
  {
    if ps == [] then [] else [RewritePiece(ps[0], mapping)] + RewritePieces(ps[1..], mapping)
  }

  function RewriteWords(words: seq<string>, mapping: Mapping): seq<string> {
    seq(|words|, i requires 0 <= i < |words| => RewriteToken(words[i], mapping))
  }

  // ---------------------------------------------------------------- applyTokenReplacements

  predicate Ordered(tokens: seq<Token>, from: nat, source: string) {
    if tokens == [] then from <= |source|
    else
      && from <= tokens[0].start <= tokens[0].end <= |source|
      && source[tokens[0].start..tokens[0].end] == tokens[0].value
      && Ordered(tokens[1..], tokens[0].end, source)
  }

  /** The source from `cursor` on, with every token replaced. */
  function Spliced(source: string, tokens: seq<Token>, cursor: nat, mapping: Mapping): string
    requires Ordered(tokens, cursor, source)
  {
    if tokens == [] then source[cursor..]
    else
      source[cursor..tokens[0].start] + RewriteToken(tokens[0].value, mapping)
      + Spliced(source, tokens[1..], tokens[0].end, mapping)
  }

  lemma Concat4(a: string, b: string, c: string, d: string)
    ensures (a + b) + c + d == a + (b + c + d)
  {}

  lemma SplicedLater(source: string, tokens: seq<Token>, cursor: nat, from: nat, mapping: Mapping)
    requires cursor <= from && Ordered(tokens, from, source)
    ensures Ordered(tokens, cursor, source)
    ensures from <= |source|
    ensures Spliced(source, tokens, cursor, mapping) == source[cursor..from] + Spliced(source, tokens, from, mapping)
  {
    if tokens == [] {
      assert source[cursor..] == source[cursor..from] + source[from..];
    } else {
      var t := tokens[0];
      assert source[cursor..t.start] == source[cursor..from] + source[from..t.start];
      Concat4(source[cursor..from], source[from..t.start], RewriteToken(t.value, mapping),
              Spliced(source, tokens[1..], t.end, mapping));
    }
  }

  lemma {:induction false} SplicedPieces(source: string, ps: seq<Piece>, at: nat, mapping: Mapping)
    requires at <= |source| && source[at..] == Flatten(ps)
    ensures Ordered(TokensAt(ps, at), at, source)
    ensures Spliced(source, TokensAt(ps, at), at, mapping) == Flatten(RewritePieces(ps, mapping))
  {
    if ps != [] {
      var end := at + |ps[0].text|;
      assert source[at..end] == source[at..][..|ps[0].text|] == ps[0].text;
      assert source[end..] == source[at..][|ps[0].text|..];
      SplicedPieces(source, ps[1..], end, mapping);
      SplicedPiece(source, ps, at, end, mapping);
    }
  }

  lemma {:induction false} SplicedPiece(source: string, ps: seq<Piece>, at: nat, end: nat, mapping: Mapping)
    requires ps != [] && at <= end == at + |ps[0].text| <= |source| && source[at..end] == ps[0].text
    requires Ordered(TokensAt(ps[1..], end), end, source)
    ensures Ordered(TokensAt(ps, at), at, source)
    ensures Spliced(source, TokensAt(ps, at), at, mapping)
         == RewritePiece(ps[0], mapping).text + Spliced(source, TokensAt(ps[1..], end), end, mapping)
  {
    var tokens, later := TokensAt(ps, at), TokensAt(ps[1..], end);
    if ps[0].Gap? {
      assert tokens == later;
      SplicedLater(source, later, at, end, mapping);
    } else {
      assert tokens == [Token(at, end, ps[0].text)] + later;
      SplicedHead(source, tokens, later, at, mapping);
    }
  }

  lemma {:induction false} SplicedHead(source: string, tokens: seq<Token>, later: seq<Token>, at: nat, mapping: Mapping)
    requires tokens != [] && tokens[1..] == later && tokens[0].start == at <= tokens[0].end <= |source|
    requires source[at..tokens[0].end] == tokens[0].value
    requires Ordered(later, tokens[0].end, source)
    ensures Ordered(tokens, at, source)
    ensures Spliced(source, tokens, at, mapping)
         == RewriteToken(tokens[0].value, mapping) + Spliced(source, later, tokens[0].end, mapping)
  {
    var r := RewriteToken(tokens[0].value, mapping);
    assert source[at..at] + r == r;
  }

  /** The copy has reached `cursor` in its output, with `tokens` still to come from `last` on. */
  ghost predicate Copying(source: string, tokens: seq<Token>, cursor: nat, last: nat, output: string,
                          mapping: Mapping, whole: string) {
    && cursor <= last && Ordered(tokens, last, source) && Ordered(tokens, cursor, source)
    && output + Spliced(source, tokens, cursor, mapping) == whole
  }

  lemma {:induction false} CopyStep(source: string, tokens: seq<Token>, cursor: nat, last: nat, output: string,
          mapping: Mapping, whole: string)
    requires tokens != [] && Copying(source, tokens, cursor, last, output, mapping, whole)
    ensures
      var t := tokens[0];
      && cursor <= t.start <= t.end <= |source|
      && (RewriteToken(t.value, mapping) == t.value ==>
            Copying(source, tokens[1..], cursor, t.end, output, mapping, whole))
      && Copying(source, tokens[1..], t.end, t.end,
                 output + source[cursor..t.start] + RewriteToken(t.value, mapping), mapping, whole)
  {
    var t := tokens[0];
    SplicedLater(source, tokens[1..], cursor, t.end, mapping);
    var r := RewriteToken(t.value, mapping);
    Regroup(output, source[cursor..t.start], r, Spliced(source, tokens[1..], t.end, mapping));
    assert source[cursor..t.end] == source[cursor..t.start] + t.value;
  }

  lemma Regroup(a: string, b: string, c: string, d: string)
    ensures a + b + c + d == a + (b + c + d)
  {}

  /** The cursor loop copies the source and splices in each token that changes. */
  method ApplyTokenReplacements(source: string, tokens: seq<Token>, mapping: Mapping) returns (output: string)
    requires Ordered(tokens, 0, source)
    ensures output == Spliced(source, tokens, 0, mapping)
  {
    output := "";
    var cursor: nat := 0;
    ghost var last, whole := 0, Spliced(source, tokens, 0, mapping);
    assert tokens[0..] == tokens;
    for k := 0 to |tokens|
      invariant Copying(source, tokens[k..], cursor, last, output, mapping, whole)
    {
      CopyStep(source, tokens[k..], cursor, last, output, mapping, whole);
      var token := tokens[k];
      assert tokens[k..][0] == token && tokens[k..][1..] == tokens[k + 1..];
      last := token.end;
      var replacement := RewriteToken(token.value, mapping);
      if replacement == token.value {
        continue;
      }
      output := output + source[cursor..token.start];
      output := output + replacement;
      cursor := token.end;
    }
    output := output + source[cursor..];
  }

  /** The rewritten text of a source that scans. */
  function RewriteSource(source: string, mapping: Mapping): string
    requires Lex(source).Some?
  {
    Flatten(RewritePieces(Lex(source).value, mapping))
  }

  // ---------------------------------------------------------------- rewriteHalModuleResources

  const MAX_MODULE_SOURCE_BYTES := 4 * 1024 * 1024
  const MAX_MODULE_RESOURCES := 256
  const MAX_SAFE_INTEGER := 9007199254740991

  datatype Resource = Resource(name: string, source: string)

  function Utf8Length(s: string): nat {
    if s == "" then 0
    else
      var c := s[0] as int;
      (if c < 0x80 then 1 else if c < 0x800 then 2 else if c < 0x1_0000 then 3 else 4) + Utf8Length(s[1..])
  }

  function TotalBytes(resources: seq<Resource>): nat {
    if resources == [] then 0 else Utf8Length(resources[0].source) + TotalBytes(resources[1..])
  }

  /** Resources that may be staged: at least one and not too many, of distinct valid names, and not
      too long. */
  predicate Stageable(resources: seq<Resource>) {
    && 1 <= |resources| <= MAX_MODULE_RESOURCES
    && (forall i :: 0 <= i < |resources| ==> IsNamespace(resources[i].name))
    && (forall i, j :: 0 <= i < j < |resources| ==> resources[i].name != resources[j].name)
    && TotalBytes(resources) <= MAX_MODULE_SOURCE_BYTES
  }

  function Names(resources: seq<Resource>): set<string> {
    set i | 0 <= i < |resources| :: resources[i].name
  }

  predicate AcceptedResource(resource: Resource) {
    Accepted(resource.source, resource.name)
  }

  predicate Acceptable(id: string, generation: nat, resources: seq<Resource>) {
    && IsAppId(id) && 1 <= generation <= MAX_SAFE_INTEGER && Stageable(resources)
    && forall i :: 0 <= i < |resources| ==> AcceptedResource(resources[i])
  }

  datatype RewriteResult = Rewritten(root: string, mapping: Mapping, resources: seq<Resource>) | Rejected

  lemma TokensInSource(source: string)
    requires Lex(source).Some?
    ensures
      var tokens := TokensAt(Lex(source).value, 0);
      && Ordered(tokens, 0, source)
      && forall mapping :: Spliced(source, tokens, 0, mapping) == RewriteSource(source, mapping)
  {
    LexSplits(source, Lex(source).value);
    assert source[0..] == source;
    forall mapping: Mapping
      ensures Ordered(TokensAt(Lex(source).value, 0), 0, source)
      ensures Spliced(source, TokensAt(Lex(source).value, 0), 0, mapping) == RewriteSource(source, mapping)
    {
      SplicedPieces(source, Lex(source).value, 0, mapping);
    }
    SplicedPieces(source, Lex(source).value, 0, map[]);
  }

  lemma TokenValues(ps: seq<Piece>, at: nat)
    ensures |TokensAt(ps, at)| == |Words(ps)|
    ensures forall i :: 0 <= i < |Words(ps)| ==> TokensAt(ps, at)[i].value == Words(ps)[i]
  {}

  /** Scans, checks and rewrites one resource. */
  method RewriteResource(resource: Resource, mapping: Mapping) returns (output: Option<string>)
    ensures output.Some? <==> AcceptedResource(resource)
    ensures output.Some? ==> output.value == RewriteSource(resource.source, mapping)
  {
    var source := resource.source;
    var scan := ScanTokens(source);
    if scan.UnterminatedString? {
      return None;
    }
    TokenValues(Lex(source).value, 0);
    var words := seq(|scan.tokens|, i requires 0 <= i < |scan.tokens| => scan.tokens[i].value);
    assert words == Words(Lex(source).value);
    if !Bounded(words, resource.name) {
      return None;
    }
    TokensInSource(source);
    var text := ApplyTokenReplacements(source, scan.tokens, mapping);
    return Some(text);
  }

  /** The resource as it is staged: under the name it maps to, with its text rewritten. */
  predicate Moves(resource: Resource, root: string, mapping: Mapping, moved: Resource) {
    && Lex(resource.source).Some?
    && moved == Resource(Target(root, resource.name), RewriteSource(resource.source, mapping))
  }

  /** Rewrites the resources in turn, and none of them if one is not acceptable. */
  method RewriteAll(resources: seq<Resource>, root: string, mapping: Mapping) returns (result: Option<seq<Resource>>)
    requires forall i :: 0 <= i < |resources| ==>
      resources[i].name in mapping && mapping[resources[i].name] == Target(root, resources[i].name)
    ensures result.Some? <==> forall i :: 0 <= i < |resources| ==> AcceptedResource(resources[i])
    ensures result.Some? ==>
      && |result.value| == |resources|
      && forall i :: 0 <= i < |resources| ==> Moves(resources[i], root, mapping, result.value[i])
  {
    var rewritten: seq<Resource> := [];
    for k := 0 to |resources|
      invariant |rewritten| == k
      invariant forall i :: 0 <= i < k ==> AcceptedResource(resources[i])
      invariant forall i :: 0 <= i < k ==> Moves(resources[i], root, mapping, rewritten[i])
    {
      var output := RewriteResource(resources[k], mapping);
      if output.None? {
        return None;
      }
      rewritten := rewritten + [Resource(mapping[resources[k].name], output.value)];
    }
    return Some(rewritten);
  }

  /** Every resource is rewritten under the same mapping and takes the name it maps to. The module
      is rejected as a whole exactly when its id, generation, names, sizes or sources are not
      acceptable. */
  method RewriteModule(id: string, generation: nat, resources: seq<Resource>) returns (result: RewriteResult)
    ensures result.Rewritten? <==> Acceptable(id, generation, resources)
    ensures result.Rewritten? ==>
      && result.root == Root(id, generation)
      && result.mapping == MappingFor(result.root, Names(resources))
      && |result.resources| == |resources|
      && forall i :: 0 <= i < |resources| ==> Moves(resources[i], result.root, result.mapping, result.resources[i])
  {
    if !IsAppId(id) || generation < 1 || generation > MAX_SAFE_INTEGER || !Stageable(resources) {
      return Rejected;
    }
    var root := Root(id, generation);
    var mapping := MappingFor(root, Names(resources));
    var rewritten := RewriteAll(resources, root, mapping);
    match rewritten
    case None => return Rejected;
    case Some(moved) => return Rewritten(root, mapping, moved);
  }
}
