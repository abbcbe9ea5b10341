/**
 * The driver's front half: tokenising a source text, and parsing the tokens, linking
 * the program as a module and flattening every linked module's statements into one
 * program, each statement preceded by a mark naming the file it came from. The error
 * engine is then given the source rebuilt from the tokens.
 *
 * The working directory and the error engine, which the source reaches as process
 * state and a singleton, are parameters here, and so is the order in which the
 * linker's module map is iterated.
 */
module AstTools {
  import opened Wrappers
  import opened Tokens
  import opened Ast
  import Lexer
  import S = ParserSpec
  import T = StatementSpec
  import P = Parser
  import L = Linker
  import E = ErrorEngine

  const LinkFailed := "Ошибка при линковке модулей"

  /** `tokenizeSource`: the lexer's token lines, or its error. */
  method TokenizeSource(sourceCode: string) returns (r: Result<seq<seq<Token>>>)
    ensures r == Lexer.TokenizeSpec(sourceCode)
  {
    var lexer := new Lexer.Lexer(sourceCode);
    var res := lexer.Tokenize();
    if res.Err? {
      return Err(res.msg);
    }
    return Ok(lexer.allTokens);
  }

  // ---------------------------------------------------------------------------------
  // Module names from file paths
  // ---------------------------------------------------------------------------------

  /** The last component of a path: everything after its last '/'. */
  function FileName(path: string): (r: string)
    ensures '/' !in r
    ensures |r| <= |path| && r == path[|path| - |r|..]
    ensures |r| < |path| ==> path[|path| - |r| - 1] == '/'
  {
    if path == [] then []
    else if path[|path| - 1] == '/' then []
    else FileName(path[..|path| - 1]) + [path[|path| - 1]]
  }

  /** The position of the last '.' in `s`, if any. */
  function LastDot(s: string): (r: Option<nat>)
    ensures r.Some? ==> r.value < |s| && s[r.value] == '.' && '.' !in s[r.value + 1..]
    ensures r.None? ==> '.' !in s
  {
    if s == [] then Option.None
    else if s[|s| - 1] == '.' then Some(|s| - 1)
    else
      var r := LastDot(s[..|s| - 1]);
      assert r.Some? ==> s[r.value + 1..] == s[..|s| - 1][r.value + 1..] + [s[|s| - 1]];
      assert s == s[..|s| - 1] + [s[|s| - 1]];
      r
  }

  /**
   * The stem of a path as the file-system library computes it: the file name without
   * its last extension. "." and "..", and a name whose only '.' is its first character,
   * are their own stems.
   */
  function Stem(path: string): string
  {
    var name := FileName(path);
    var dot := LastDot(name);
    if name == "." || name == ".." then name
    else if dot.Some? && dot.value > 0 then name[..dot.value]
    else name
  }

  /** A stem is a non-empty-extension-free prefix of the file name: it has no '/', and it drops exactly the last extension. */
  lemma StemShape(path: string)
    ensures var name := FileName(path); var stem := Stem(path);
      && '/' !in stem
      && stem == name[..|stem|]
      && (|stem| < |name| ==> name[|stem|] == '.' && '.' !in name[|stem| + 1..] && |stem| > 0)
  {
    var name := FileName(path);
    var dot := LastDot(name);
    if name == "." || name == ".." || !(dot.Some? && dot.value > 0) {
      assert Stem(path) == name == name[..|name|];
    } else {
      var d := dot.value;
      assert Stem(path) == name[..d];
      assert forall c :: c in name[..d] ==> c in name;
      assert name[d + 1..] == name[..][d + 1..];
    }
  }

  /** A path without '/' is its own file name. */
  lemma {:induction false} FileNameOfName(name: string)
    requires '/' !in name
    ensures FileName(name) == name
  {
    if name != [] {
      var init := name[..|name| - 1];
      assert forall c :: c in init ==> c in name;
      FileNameOfName(init);
      assert name == init + [name[|name| - 1]];
    }
  }

  // ---------------------------------------------------------------------------------
  // The combined program
  // ---------------------------------------------------------------------------------

  /** The nodes that are not imports, in order. */
  function NonImports(nodes: seq<Node>): (r: seq<Node>)
    ensures |r| <= |nodes|
  {
    if nodes == [] then []
    else
      var last := nodes[|nodes| - 1];
      NonImports(nodes[..|nodes| - 1]) + (if last.kind.ImportNode? then [] else [last])
  }

  /** A module's statements as they enter the combined program: each non-import preceded by a mark naming the file. */
  function Marked(path: string, nodes: seq<Node>): seq<Node>
  {
    if nodes == [] then []
    else
      var last := nodes[|nodes| - 1];
      Marked(path, nodes[..|nodes| - 1]) + (if last.kind.ImportNode? then [] else [Plain(ModuleMark(path)), last])
  }

  /** The combined body after the first `n` modules, in iteration order. */
  function CombinedFirst(modules: map<string, L.ModuleContext>, names: seq<string>, n: nat): seq<Node>
    requires n <= |names| && forall k :: 0 <= k < |names| ==> names[k] in modules
  {
    if n == 0 then []
    else CombinedFirst(modules, names, n - 1) + Marked(modules[names[n - 1]].path, L.Body(modules[names[n - 1]].ast))
  }

  /** The imports are dropped, and everything else is kept in order. */
  lemma {:induction false} NonImportsSpec(nodes: seq<Node>)
    ensures forall x :: x in NonImports(nodes) <==> x in nodes && !x.kind.ImportNode?
  {
    if nodes != [] {
      var init := nodes[..|nodes| - 1];
      NonImportsSpec(init);
      assert nodes == init + [nodes[|nodes| - 1]];
    }
  }

  /** Unmarking recovers the module's non-import statements: marks at even positions, the statements at odd ones. */
  lemma {:induction false} MarkedShape(path: string, nodes: seq<Node>)
    ensures |Marked(path, nodes)| == 2 * |NonImports(nodes)|
    ensures forall k :: 0 <= k < |NonImports(nodes)| ==>
      Marked(path, nodes)[2 * k] == Plain(ModuleMark(path)) && Marked(path, nodes)[2 * k + 1] == NonImports(nodes)[k]
  {
    if nodes != [] {
      MarkedShape(path, nodes[..|nodes| - 1]);
    }
  }

  /** A stretch of a combined body: no import, pairs of a module mark followed by a statement. */
  predicate MarkedBody(c: seq<Node>)
  {
    && |c| % 2 == 0
    && forall k :: 0 <= k < |c| ==> !c[k].kind.ImportNode? && (k % 2 == 0 ==> c[k].kind.ModuleMark?)
  }

  /** Two such stretches glued together form one. */
  lemma MarkedBodyAppend(a: seq<Node>, b: seq<Node>)
    requires MarkedBody(a) && MarkedBody(b)
    ensures MarkedBody(a + b)
  {
    var c := a + b;
    forall k | |a| <= k < |c|
      ensures !c[k].kind.ImportNode? && (k % 2 == 0 ==> c[k].kind.ModuleMark?)
    {
      assert c[k] == b[k - |a|];
      assert (k - |a|) % 2 == k % 2;
    }
  }

  /** A module's marked statements hold no import, and every even position is a module mark. */
  lemma MarkedHasNoImports(path: string, nodes: seq<Node>)
    ensures MarkedBody(Marked(path, nodes))
  {
    MarkedShape(path, nodes);
    NonImportsSpec(nodes);
    var marked := Marked(path, nodes);
    forall k | 0 <= k < |marked|
      ensures !marked[k].kind.ImportNode? && (k % 2 == 0 ==> marked[k].kind.ModuleMark?)
    {
      var q := k / 2;
      if k % 2 == 0 {
        assert marked[2 * q] == Plain(ModuleMark(path));
      } else {
        assert marked[2 * q + 1] == NonImports(nodes)[q];
        assert NonImports(nodes)[q] in NonImports(nodes);
      }
    }
  }

  /** The combined body holds no import, and every even position is a module mark. */
  lemma {:induction false} CombinedHasNoImports(modules: map<string, L.ModuleContext>, names: seq<string>, n: nat)
    requires n <= |names| && forall k :: 0 <= k < |names| ==> names[k] in modules
    ensures MarkedBody(CombinedFirst(modules, names, n))
  {
    if n > 0 {
      CombinedHasNoImports(modules, names, n - 1);
      var m := modules[names[n - 1]];
      MarkedHasNoImports(m.path, L.Body(m.ast));
      MarkedBodyAppend(CombinedFirst(modules, names, n - 1), Marked(m.path, L.Body(m.ast)));
    }
  }

  // ---------------------------------------------------------------------------------
  // The source rebuilt from tokens
  // ---------------------------------------------------------------------------------

  /** One line of the rebuilt source: each token's text followed by a space. */
  function SourceLine(tokens: seq<Token>): string
  {
    if tokens == [] then ""
    else SourceLine(tokens[..|tokens| - 1]) + tokens[|tokens| - 1].value + " "
  }

  /** The rebuilt source, one line per token line. */
  function SourceLines(lines: seq<seq<Token>>): (r: seq<string>)
    ensures |r| == |lines| && forall i :: 0 <= i < |lines| ==> r[i] == SourceLine(lines[i])
  {
    seq(|lines|, i requires 0 <= i < |lines| => SourceLine(lines[i]))
  }

  /** Rebuilding distributes over splitting a line, and adds exactly one space per token. */
  lemma {:induction false} SourceLineAppend(a: seq<Token>, b: seq<Token>)
    ensures SourceLine(a + b) == SourceLine(a) + SourceLine(b)
    decreases |b|
  {
    if b == [] {
      assert a + b == a;
    } else {
      var init, last := b[..|b| - 1], b[|b| - 1];
      SourceLineAppend(a, init);
      assert (a + b)[..|a + b| - 1] == a + init;
      assert (a + b)[|a + b| - 1] == last;
      calc {
        SourceLine(a + b);
        SourceLine(a + init) + last.value + " ";
        SourceLine(a) + SourceLine(init) + last.value + " ";
        SourceLine(a) + (SourceLine(init) + last.value + " ");
      }
    }
  }

  lemma SourceLineOfOne(t: Token)
    ensures SourceLine([t]) == t.value + " "
  {
    assert [t][..0] == [];
  }

  // ---------------------------------------------------------------------------------
  // parseAndLinkModules
  // ---------------------------------------------------------------------------------

  /** The linker's modules after adding the program as module `name` and linking. */
  function Linked(program: Node, name: string, path: string, order: set<string> -> seq<string>): (r: (bool, map<string, L.ModuleContext>))
    requires L.Enumerates(order({name}), {name})
    ensures r.1.Keys == {name}
  {
    var modules := map[name := L.NewModule(name, path, program)];
    assert modules.Keys == {name};
    L.Link(modules, order)
  }

  /** The combined body of every linked module, or the link error. */
  function Combine(program: Node, name: string, path: string, order: set<string> -> seq<string>): Result<seq<Node>>
    requires L.Enumerates(order({name}), {name})
  {
    var linked := Linked(program, name, path, order);
    if !linked.0 then Err(LinkFailed)
    else
      var names := order({name});
      L.EnumeratedKeys(names, linked.1);
      Ok(CombinedFirst(linked.1, names, |names|))
  }

  /** What `parseAndLinkModules` returns: the combined program, or the parse or link error. */
  function ParseAndLink(tokens: S.Lines, inputFile: string, order: set<string> -> seq<string>): Result<Node>
    requires L.Enumerates(order({Stem(inputFile)}), {Stem(inputFile)})
  {
    var program :- T.Program(tokens, S.Cursor(0, 0), inputFile);
    var body :- Combine(program, Stem(inputFile), inputFile, order);
    Ok(Plain(ProgramNode(body, program.kind.moduleName)))
  }

  /**
   * With only the program itself linked, the combined body is the program's own
   * statements, imports dropped, each marked with the input file; and linking succeeds
   * exactly when each import path is empty or names the program's own module (and,
   * with a symbol, one that module declares).
   */
  lemma SingleModuleCombine(program: Node, name: string, path: string, order: set<string> -> seq<string>)
    requires L.Enumerates(order({name}), {name})
    ensures var r := Combine(program, name, path, order);
      && (r.Ok? <==> L.ImportsOk(map[name := L.NewModule(name, path, program)], L.Body(program), 0))
      && (r.Ok? ==> r.value == Marked(path, L.Body(program)))
      && (r.Err? ==> r.msg == LinkFailed)
  {
    SingleModuleLinked(program, name, path, order);
    SingleModuleKept(program, name, path, order);
    var linked := Linked(program, name, path, order);
    var names := order({name});
    assert names == [name] by {
      assert |names| == 1 && name in names;
    }
    assert CombinedFirst(linked.1, names, 0) == [];
  }

  /** Linking the program alone succeeds exactly when its imports do. */
  lemma SingleModuleLinked(program: Node, name: string, path: string, order: set<string> -> seq<string>)
    requires L.Enumerates(order({name}), {name})
    ensures Linked(program, name, path, order).0 <==>
      L.ImportsOk(map[name := L.NewModule(name, path, program)], L.Body(program), 0)
  {
    var modules := map[name := L.NewModule(name, path, program)];
    assert modules.Keys == {name};
    L.LinkAlone(modules, name, order);
  }

  /** Linking keeps the program's path and program. */
  lemma SingleModuleKept(program: Node, name: string, path: string, order: set<string> -> seq<string>)
    requires L.Enumerates(order({name}), {name})
    ensures var linked := Linked(program, name, path, order);
      linked.1[name].path == path && linked.1[name].ast == program
  {
    var modules := map[name := L.NewModule(name, path, program)];
    assert modules.Keys == {name};
    L.LinkKeepsDeclarations(modules, order);
    assert L.Defs(Linked(program, name, path, order).1[name]) == L.Defs(modules[name]);
  }

  /** The combining half of `parseAndLinkModules`: a new linker, the program added under `name`, linking, then the module loop. */
  method LinkAndCombine(program: Node, name: string, path: string, cwd: string, order: set<string> -> seq<string>)
    returns (r: Result<seq<Node>>)
    requires L.Enumerates(order({name}), {name})
    ensures r == Combine(program, name, path, order)
  {
    var linker := new L.Linker(cwd);
    var added := linker.AddModule(name, path, program);
    // The source throws when adding fails; a new linker has no module to clash with.
    assert added;
    assert linker.modules.Keys == {name};
    var linked := linker.LinkModules(order);
    if !linked {
      return Err(LinkFailed);
    }
    var modules := linker.modules;
    var names := order(modules.Keys);
    L.EnumeratedKeys(names, modules);
    var combined: seq<Node> := [];
    for i := 0 to |names|
      invariant combined == CombinedFirst(modules, names, i)
    {
      var m := modules[names[i]];
      var marked := MarkStatements(m.path, L.Body(m.ast));
      combined := combined + marked;
    }
    return Ok(combined);
  }

  /** The body of the module loop: each statement that is not an import, behind a mark naming the module's path. */
  method MarkStatements(path: string, body: seq<Node>) returns (marked: seq<Node>)
    ensures marked == Marked(path, body)
  {
    marked := [];
    for j := 0 to |body|
      invariant marked == Marked(path, body[..j])
    {
      assert body[..j + 1][..j] == body[..j];
      if !body[j].kind.ImportNode? {
        marked := marked + [Plain(ModuleMark(path)), body[j]];
      }
    }
    assert body[..|body|] == body;
  }

  /** The source the error engine is given: one line per token line, each token's text followed by a space. */
  method RebuildSource(tokens: seq<seq<Token>>) returns (lines: seq<string>)
    ensures lines == SourceLines(tokens)
  {
    lines := [];
    for i := 0 to |tokens|
      invariant lines == SourceLines(tokens[..i])
    {
      var line := "";
      for k := 0 to |tokens[i]|
        invariant line == SourceLine(tokens[i][..k])
      {
        assert tokens[i][..k + 1][..k] == tokens[i][..k];
        line := line + tokens[i][k].value + " ";
      }
      assert tokens[i][..|tokens[i]|] == tokens[i];
      lines := lines + [line];
    }
    assert tokens[..|tokens|] == tokens;
  }

  /**
   * `parseAndLinkModules`: parse, register the program under its file's stem, link,
   * combine every module's non-import statements behind module marks, and hand the
   * rebuilt source to the error engine.
   */
  method ParseAndLinkModules(tokens: S.Lines, inputFile: string, cwd: string, engine: E.ErrorEngine,
                             order: set<string> -> seq<string>) returns (r: Result<Node>)
    requires L.Enumerates(order({Stem(inputFile)}), {Stem(inputFile)})
    modifies engine
    ensures r == ParseAndLink(tokens, inputFile, order)
    ensures r.Ok? ==> engine.sourceLines == Some(SourceLines(tokens)) && engine.errorCount == 0 && engine.warningCount == 0
    ensures r.Err? ==> unchanged(engine)
  {
    var parser := new P.Parser(tokens, inputFile);
    var program := parser.Parse();
    if program.Err? {
      return Err(program.msg);
    }
    var body := LinkAndCombine(program.value, Stem(inputFile), inputFile, cwd, order);
    if body.Err? {
      return Err(body.msg);
    }
    var lines := RebuildSource(tokens);
    engine.Initialize(lines);
    return Ok(Plain(ProgramNode(body.value, program.value.kind.moduleName)));
  }
}
