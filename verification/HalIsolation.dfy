/** What rewriting preserves: the rewritten text scans to the rewritten tokens, the renaming can be
    undone, and a module's references stay under its own root. */
module HalIsolation {
  import opened Options
  import opened HalScanner
  import opened HalRewriter

  /** The mappings that rewriting uses: namespaces to non-empty symbols. */
  ghost predicate Renames(mapping: Mapping) {
    forall name :: name in mapping ==> IsNamespace(name) && IsSymbol(mapping[name])
  }

  // ---------------------------------------------------------------- scanning commutes with rewriting

  lemma NamespaceUnbroken(name: string)
    requires IsNamespace(name)
    ensures IsSymbol(name) && '/' !in name && name[0] != ':'
  {
    forall i | 0 <= i < |name| ensures !Breaks(name[i]) && name[i] != '/' {
      assert NamespaceChar(name, i);
    }
  }

  lemma DelimiterKept(c: char, mapping: Mapping)
    requires IsDelimiter(c) && Renames(mapping)
    ensures RewriteToken([c], mapping) == [c]
  {
    assert Breaks([c][0]) && !IsSymbol([c]);
    if [c] in mapping {
      NamespaceUnbroken([c]);
    }
    assert c != '/';
    assert [c][1..] == "" && Slash([c]) == 1;
  }

  lemma SymbolKept(value: string, mapping: Mapping)
    requires IsSymbol(value) && Renames(mapping)
    ensures IsSymbol(RewriteToken(value, mapping))
  {
    var separator := Slash(value);
    if !(value in mapping) && 0 < separator < |value| && value[..separator] in mapping {
      var target, rest := mapping[value[..separator]], value[separator..];
      assert forall i :: 0 <= i < |rest| ==> rest[i] == value[separator + i];
    }
  }

  /** x and y start alike as far as a scanner that looks one character ahead can tell. */
  predicate SameStart(x: string, y: string) {
    (x == "" <==> y == "") && (x != "" && Breaks(x[0]) ==> y[0] == x[0]) && (x != "" && !Breaks(x[0]) ==> !Breaks(y[0]))
  }

  lemma PieceKept(p: Piece, next: string, next': string, mapping: Mapping)
    requires IsPiece(p, next) && SameStart(next, next') && Renames(mapping)
    ensures IsPiece(RewritePiece(p, mapping), next')
    ensures p.text != "" && SameStart(p.text, RewritePiece(p, mapping).text)
  {
    if p.Word? {
      var t := p.text;
      if |t| == 1 && IsDelimiter(t[0]) {
        assert t == [t[0]];
        DelimiterKept(t[0], mapping);
      } else {
        SymbolKept(t, mapping);
      }
    }
  }

  lemma {:induction false} PiecesKept(ps: seq<Piece>, mapping: Mapping)
    requires Splits(ps) && Renames(mapping)
    ensures Splits(RewritePieces(ps, mapping))
    ensures SameStart(Flatten(ps), Flatten(RewritePieces(ps, mapping)))
  {
    if ps != [] {
      var rest, rest' := ps[1..], RewritePieces(ps[1..], mapping);
      PiecesKept(rest, mapping);
      PieceKept(ps[0], Flatten(rest), Flatten(rest'), mapping);
      assert RewritePieces(ps, mapping)[1..] == rest';
    }
  }

  lemma {:induction false} WordsRewritten(ps: seq<Piece>, mapping: Mapping)
    ensures Words(RewritePieces(ps, mapping)) == RewriteWords(Words(ps), mapping)
  {
    if ps != [] {
      WordsRewritten(ps[1..], mapping);
      assert RewritePieces(ps, mapping)[1..] == RewritePieces(ps[1..], mapping);
    }
  }

  /** Scanning the rewritten source yields the original pieces with each token rewritten: the same
      gaps in the same places, and token for token the rewriting of the original. */
  lemma ScanCommutes(source: string, mapping: Mapping)
    requires Lex(source).Some? && Renames(mapping)
    ensures
      var ps := Lex(source).value;
      && Lex(RewriteSource(source, mapping)) == Some(RewritePieces(ps, mapping))
      && Words(RewritePieces(ps, mapping)) == RewriteWords(Words(ps), mapping)
  {
    var ps := Lex(source).value;
    LexSplits(source, ps);
    PiecesKept(ps, mapping);
    LexSplits(RewriteSource(source, mapping), RewritePieces(ps, mapping));
    WordsRewritten(ps, mapping);
  }

  // ---------------------------------------------------------------- undoing the renaming

  /** The renaming undone on one token: the root is taken off a namespace that lies under it. */
  function RestoreToken(value: string, root: string, names: set<string>): string {
    var under := root + ".";
    var end := Slash(value);
    if !IsKeyword(value) && StartsWith(value[..end], under) && value[..end][|under|..] in names
    then value[|under|..]
    else value
  }

  function RestorePieces(ps: seq<Piece>, root: string, names: set<string>): seq<Piece> {
    if ps == [] then []
    else
      [match ps[0] case Gap(_) => ps[0] case Word(t) => Word(RestoreToken(t, root, names))]
      + RestorePieces(ps[1..], root, names)
  }

  /** Rewritten text, scanned and renamed back. */
  function RestoreSource(output: string, root: string, names: set<string>): string
    requires Lex(output).Some?
  {
    Flatten(RestorePieces(Lex(output).value, root, names))
  }

  ghost predicate AllNamespaces(names: set<string>) {
    forall name :: name in names ==> IsNamespace(name)
  }

  /** A root that no accepted token names: it starts with "app." and has no slash. */
  predicate IsRoot(root: string) {
    StartsWith(root, "app.") && IsSymbol(root) && '/' !in root
  }

  lemma {:induction false} SlashAfter(a: string, b: string)
    requires '/' !in a
    ensures Slash(a + b) == |a| + Slash(b)
  {
    if a == "" {
      assert a + b == b;
    } else {
      assert a[0] in a;
      SlashAfter(a[1..], b);
      assert (a + b)[1..] == a[1..] + b;
    }
  }

  lemma RootNames(root: string, names: set<string>)
    requires IsRoot(root) && AllNamespaces(names)
    ensures Renames(MappingFor(root, names))
  {
    forall name | name in names ensures IsSymbol(Target(root, name)) {
      NamespaceUnbroken(name);
    }
  }

  /** A token that names a namespace of the module is moved under the root, and back. */
  lemma MovedAndBack(name: string, rest: string, root: string, names: set<string>)
    requires IsRoot(root) && AllNamespaces(names) && name in names && Slash(rest) == 0
    ensures !IsKeyword(Target(root, name) + rest)
    ensures RestoreToken(Target(root, name) + rest, root, names) == name + rest
  {
    NamespaceUnbroken(name);
    var under := root + ".";
    var target := Target(root, name);
    assert target == under + name && '/' !in target;
    SlashAfter(target, rest);
    assert (target + rest)[..|target|] == target && target[|under|..] == name;
    assert (target + rest)[|under|..] == name + rest;
  }

  lemma TokenRestored(value: string, root: string, names: set<string>)
    requires IsRoot(root) && AllNamespaces(names) && (BoundedToken(value) || value == "ns")
    ensures RestoreToken(RewriteToken(value, MappingFor(root, names)), root, names) == value
  {
    var separator := Slash(value);
    if value == "" || IsKeyword(value) {
    } else if value in names {
      MovedAndBack(value, "", root, names);
      assert Target(root, value) + "" == Target(root, value);
    } else if 0 < separator < |value| && value[..separator] in names {
      var name, rest := value[..separator], value[separator..];
      NamespaceUnbroken(name);
      assert rest[0] == '/' && value == name + rest;
      QualifiedMoved(name, rest, MappingFor(root, names));
      MovedAndBack(name, rest, root, names);
    } else {
      OutsideRoot(value, root);
    }
  }

  lemma QualifiedMoved(name: string, rest: string, mapping: Mapping)
    requires '/' !in name && name != "" && name[0] != ':' && Slash(rest) == 0 && rest != ""
    requires name in mapping && mapping[name] != "" && name + rest !in mapping
    ensures RewriteToken(name + rest, mapping) == mapping[name] + rest
  {
    SlashAfter(name, rest);
    assert (name + rest)[..|name|] == name && (name + rest)[|name|..] == rest;
  }

  /** A token and the namespace it names start alike, up to the token's first slash. */
  lemma NamespaceStarts(value: string, prefix: string)
    requires value != "" && !IsKeyword(value) && prefix != "" && '/' !in prefix
    ensures StartsWith(value, prefix) ==> StartsWith(TokenNamespace(value).value, prefix)
    ensures StartsWith(value[..Slash(value)], prefix) ==> StartsWith(value, prefix)
  {
    if StartsWith(value, prefix) {
      assert value == prefix + value[|prefix|..];
      SlashAfter(prefix, value[|prefix|..]);
    }
  }

  /** No accepted token names a namespace under a root, nor one of the host's. */
  lemma OutsideRoot(value: string, root: string)
    requires IsRoot(root) && value != "" && !IsKeyword(value) && (BoundedToken(value) || value == "ns")
    ensures !StartsWith(value[..Slash(value)], root + ".") && !StartsWith(value, "app.")
    ensures !StartsWith(value, "gw.os") && !StartsWith(value, "std.native")
  {
    NamespaceStarts(value, "app.");
    NamespaceStarts(value, "gw.os");
    NamespaceStarts(value, "std.native");
    assert "app." <= root + ".";
  }

  ghost predicate BoundedWords(words: seq<string>) {
    forall i :: 0 <= i < |words| ==> BoundedToken(words[i]) || words[i] == "ns"
  }

  lemma {:induction false} PiecesRestored(ps: seq<Piece>, root: string, names: set<string>)
    requires IsRoot(root) && AllNamespaces(names) && BoundedWords(Words(ps))
    ensures RestorePieces(RewritePieces(ps, MappingFor(root, names)), root, names) == ps
  {
    if ps != [] {
      var mapping := MappingFor(root, names);
      assert forall i :: 0 <= i < |Words(ps[1..])| ==> Words(ps[1..])[i] in Words(ps);
      PiecesRestored(ps[1..], root, names);
      assert RewritePieces(ps, mapping)[1..] == RewritePieces(ps[1..], mapping);
      if ps[0].Word? {
        assert Words(ps)[0] == ps[0].text;
        TokenRestored(ps[0].text, root, names);
      }
    }
  }

  /** Renaming back recovers the exact source text of every accepted source. */
  lemma SourceRestored(source: string, name: string, root: string, names: set<string>)
    requires IsRoot(root) && AllNamespaces(names) && Accepted(source, name)
    ensures
      var output := RewriteSource(source, MappingFor(root, names));
      Lex(output).Some? && RestoreSource(output, root, names) == source
  {
    RootNames(root, names);
    ScanCommutes(source, MappingFor(root, names));
    LexSplits(source, Lex(source).value);
    PiecesRestored(Lex(source).value, root, names);
  }

  /** Hence two accepted sources are never rewritten to the same text. */
  lemma RewritingInjective(a: string, aName: string, b: string, bName: string, root: string, names: set<string>)
    requires IsRoot(root) && AllNamespaces(names) && Accepted(a, aName) && Accepted(b, bName)
    requires RewriteSource(a, MappingFor(root, names)) == RewriteSource(b, MappingFor(root, names))
    ensures a == b
  {
    SourceRestored(a, aName, root, names);
    SourceRestored(b, bName, root, names);
  }

  // ---------------------------------------------------------------- isolation

  /** In the text of a rewritten module, every token that reaches into the "app." tree lies under
      the module's own root, and none reaches into the host's namespaces. */
  lemma ReferencesIsolated(source: string, name: string, root: string, names: set<string>)
    requires IsRoot(root) && AllNamespaces(names) && Accepted(source, name)
    ensures
      var output := RewriteSource(source, MappingFor(root, names));
      && Lex(output).Some?
      && forall value :: value in Words(Lex(output).value) && !IsKeyword(value) ==>
           && (StartsWith(value, "app.") ==> StartsWith(value, root + "."))
           && !StartsWith(value, "gw.os") && !StartsWith(value, "std.native")
  {
    var mapping := MappingFor(root, names);
    RootNames(root, names);
    ScanCommutes(source, mapping);
    var words := Words(Lex(source).value);
    var output := RewriteSource(source, mapping);
    forall value | value in Words(Lex(output).value) && !IsKeyword(value)
      ensures StartsWith(value, "app.") ==> StartsWith(value, root + ".")
      ensures !StartsWith(value, "gw.os") && !StartsWith(value, "std.native")
    {
      var i :| 0 <= i < |words| && RewriteWords(words, mapping)[i] == value;
      TokenIsolated(words[i], root, names);
    }
  }

  lemma TokenIsolated(value: string, root: string, names: set<string>)
    requires IsRoot(root) && AllNamespaces(names) && (BoundedToken(value) || value == "ns")
    ensures
      var renamed := RewriteToken(value, MappingFor(root, names));
      !IsKeyword(renamed) ==>
        && (StartsWith(renamed, "app.") ==> StartsWith(renamed, root + "."))
        && !StartsWith(renamed, "gw.os") && !StartsWith(renamed, "std.native")
  {
    var mapping := MappingFor(root, names);
    var renamed := RewriteToken(value, mapping);
    if renamed == value {
      if value != "" && !IsKeyword(value) {
        OutsideRoot(value, root);
      }
    } else {
      assert root + "." <= renamed;
      assert renamed[0] == root[0] == 'a' by { assert root[..4] == "app."; }
    }
  }
}
