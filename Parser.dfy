/**
 * The `Parser` class: the token lines, the module name and the two cursor fields the
 * parsing methods move. Every method is proved to return what the corresponding
 * function of `ParserSpec` or `StatementSpec` returns from the cursor it started at,
 * and to leave the cursor where that function says.
 */
module Parser {
  import opened Wrappers
  import opened Tokens
  import opened Ast
  import S = ParserSpec
  import T = StatementSpec
  import Text

  /** A method's outcome agrees with a specification's: same value and final cursor, or same error. */
  predicate Agrees<V(==)>(r: Result<V>, s: Result<(V, S.Cursor)>, c: S.Cursor)
  {
    (s.Ok? ==> r == Ok(s.value.0) && c == s.value.1) && (s.Err? ==> r == Err(s.msg))
  }

  class Parser {
    const lines: S.Lines
    const moduleName: string
    var lineIndex: int
    var tokenIndex: int

    /** The cursor the two index fields form. */
    function At(): S.Cursor
      reads this
    {
      S.Cursor(lineIndex, tokenIndex)
    }

    constructor (tokens: S.Lines, name: string)
      ensures lines == tokens && moduleName == name
      ensures At() == S.Cursor(0, 0)
    {
      lines := tokens;
      moduleName := name;
      lineIndex := 0;
      tokenIndex := 0;
    }

    method IsEndOfFile() returns (b: bool)
      ensures b == S.IsEndOfFile(lines, At())
    {
      b := !(0 <= lineIndex < |lines|);
    }

    method IsEndOfLine() returns (b: bool)
      ensures b == S.IsEndOfLine(lines, At())
    {
      b := !(0 <= tokenIndex < |S.LineAt(lines, lineIndex)|);
    }

    method Current() returns (t: Token)
      ensures t == S.Current(lines, At())
    {
      var eof := IsEndOfFile();
      var eol := IsEndOfLine();
      if !eof && !eol {
        return lines[lineIndex][tokenIndex];
      }
      return NoToken;
    }

    method Advance() returns (t: Token)
      modifies this
      ensures (t, At()) == S.Advance(lines, old(At()))
    {
      var eof := IsEndOfFile();
      var eol := IsEndOfLine();
      if !eof && !eol {
        t := lines[lineIndex][tokenIndex];
        tokenIndex := tokenIndex + 1;
        return;
      }
      return NoToken;
    }

    method Check(k: TokenType) returns (b: bool)
      ensures b == S.Check(lines, At(), k)
    {
      var eof := IsEndOfFile();
      if eof { return false; }
      var eol := IsEndOfLine();
      if eol { return false; }
      return lines[lineIndex][tokenIndex].kind == k;
    }

    method Match(k: TokenType) returns (b: bool)
      modifies this
      ensures (b, At()) == S.Match(lines, old(At()), k)
    {
      b := Check(k);
      if b {
        var _ := Advance();
      }
    }

    method Peek() returns (t: Token)
      ensures t == S.Peek(lines, At())
    {
      var eof := IsEndOfFile();
      if !eof && 0 <= tokenIndex + 1 < |lines[lineIndex]| {
        return lines[lineIndex][tokenIndex + 1];
      }
      return NoToken;
    }

    method NextLine() returns (b: bool)
      modifies this
      ensures (b, At()) == S.NextLine(lines, old(At()))
    {
      var eof := IsEndOfFile();
      if eof { return false; }
      lineIndex := lineIndex + 1;
      tokenIndex := 0;
      return true;
    }

    /** `consume`: `match`, or raise the message (`throwError`). */
    method Consume(k: TokenType, msg: string) returns (r: Result<()>)
      modifies this
      ensures r.Ok? <==> S.Consume(lines, old(At()), k, msg).Ok?
      ensures r.Ok? ==> At() == S.Consume(lines, old(At()), k, msg).value
      ensures r.Err? ==> r.msg == msg
    {
      var matched := Match(k);
      if matched { return Ok(()); }
      return Err(msg);
    }

    /** `getIndentLevel`: count Pipe tokens from the start of the line until the first other token. */
    method GetIndentLevel(line: seq<Token>) returns (n: int)
      ensures n == S.IndentLevel(line)
    {
      n := 0;
      while n < |line|
        invariant 0 <= n <= |line|
        invariant forall k :: 0 <= k < n ==> line[k].kind == Pipe
      {
        if line[n].kind != Pipe {
          break;
        }
        n := n + 1;
      }
      S.IndentLevelIsLeadingPipes(line, n);
    }

    method GetLastTokenInCurrentLine() returns (t: Token)
      ensures t == S.LastTokenInLine(lines, At())
    {
      if 0 <= lineIndex < |lines| && lines[lineIndex] != [] {
        return lines[lineIndex][|lines[lineIndex]| - 1];
      }
      return NoToken;
    }

    /** `getFullType`, with its do-while over type parameters. */
    method GetFullType() returns (r: Result<TypeNode>)
      modifies this
      ensures Agrees(r, S.FullType(lines, old(At())), At())
      decreases S.Remaining(lines, At()), 0
    {
      var tok := Current();
      if tok.kind != Type && tok.kind != Identifier {
        return Err("Expected type identifier");
      }
      var _ := Advance();
      var isOp := Check(Operator);
      var opTok := Current();
      if !(isOp && opTok.value == "<") {
        return Ok(SimpleTypeNode(tok.value));
      }
      var _ := Advance();
      ghost var start := At();
      var ps: seq<TypeNode> := [];
      while true
        invariant S.TypeParameters(lines, At(), ps) == S.TypeParameters(lines, start, [])
        invariant lineIndex == old(lineIndex) && S.Remaining(lines, At()) < S.Remaining(lines, old(At()))
        decreases S.Remaining(lines, At())
      {
        var p :- GetFullType();
        ps := ps + [p];
        var comma := Check(Comma);
        if !comma {
          break;
        }
        var _ := Advance();
      }
      var closeOp := Check(Operator);
      var closing := Current();
      if !closeOp && closing.value != "<" {
        return Err("Expected > to close generic type");
      }
      var _ := Advance();
      return Ok(GenericTypeNode(tok.value, ps));
    }

    method ParseExpression() returns (r: Result<Node>)
      modifies this
      ensures Agrees(r, S.Expression(lines, old(At())), At())
      decreases S.Remaining(lines, At()), 9
    {
      r := ParseBinary(0);
    }

    /** `parseBinary`: a unary operand, then the precedence-climbing while-loop. */
    method ParseBinary(p: int) returns (r: Result<Node>)
      requires p >= 0
      modifies this
      ensures Agrees(r, S.Binary(lines, old(At()), p), At())
      decreases S.Remaining(lines, At()), 8
    {
      var left :- ParseUnary();
      while true
        invariant S.BinaryLoop(lines, At(), p, left) == S.Binary(lines, old(At()), p)
        invariant lineIndex == old(lineIndex) && S.Remaining(lines, At()) <= S.Remaining(lines, old(At()))
        decreases S.Remaining(lines, At())
      {
        var tok := Current();
        var cp := S.Precedence(tok);
        if cp < p {
          break;
        }
        var _ := Advance();
        var right :- ParseBinary(cp);
        left := Plain(BinaryOpNode(left, tok.value, right));
      }
      return Ok(left);
    }

    method ParseUnary() returns (r: Result<Node>)
      modifies this
      ensures Agrees(r, S.Unary(lines, old(At())), At())
      decreases S.Remaining(lines, At()), 6
    {
      var tok := Current();
      if S.IsUnaryOperator(tok) {
        var _ := Advance();
        var operand :- ParseUnary();
        return Ok(Plain(UnaryOpNode(tok.value, operand)));
      }
      r := ParsePrimary();
    }

    method ParsePrimary() returns (r: Result<Node>)
      modifies this
      ensures Agrees(r, S.Primary(lines, old(At())), At())
      decreases S.Remaining(lines, At()), 5
    {
      var tok := Current();
      var next := Peek();
      if tok.kind == Number {
        var _ := Advance();
        return S.NumberLiteral(tok);
      } else if tok.kind == String {
        var _ := Advance();
        var text :- S.StringLiteralText(tok.value);
        return Ok(Plain(StringNode(text)));
      } else if tok.kind == Identifier && next.kind == LeftParen {
        var _ := Advance();
        var open := Check(LeftParen);
        if open {
          var _ := Advance();
          var args :- ParseArguments();
          var _ :- Consume(RightParen, "Expected ')' after function arguments");
          return Ok(Plain(CallNode(tok.value, args)));
        }
        return Ok(Plain(IdentifierNode(tok.value)));
      } else if tok.kind == Identifier && next.kind == LeftBracket {
        r := ParseMemberExpression();
      } else if tok.kind == Identifier && next.kind == Dot {
        r := ParseMemberExpression();
      } else if tok.kind == LeftBracket {
        r := ParseArrayLiteral(next);
      } else if tok.kind == LeftBrace {
        r := ParseMapLiteral(next);
      } else if tok.kind == LeftParen {
        var _ := Advance();
        var e :- ParseExpression();
        var _ :- Consume(RightParen, "Expected ')' after expression");
        return Ok(e);
      } else if tok.kind == Keyword {
        r := ParseKeywordLiteral(tok);
      } else if tok.kind == Identifier && (next.value != "." || next.value != "[") {
        var _ := Advance();
        return Ok(Plain(IdentifierNode(tok.value)));
      } else {
        return Err(S.UnknownPrimaryMessage(tok));
      }
    }

    /** The `[` branch of `parsePrimary`: an array literal; `[]` is a NoneNode. */
    method ParseArrayLiteral(next: Token) returns (r: Result<Node>)
      requires S.Current(lines, At()).kind == LeftBracket && next == S.Peek(lines, At())
      modifies this
      ensures Agrees(r, S.ArrayLiteral(lines, old(At())), At())
      decreases S.Remaining(lines, At()), 4
    {
      if next.kind == RightBracket {
        return Ok(Plain(NoneNode));
      }
      var items :- ParseArrayItems();
      var _ :- Consume(RightBracket, "Expected ']' after array arguments");
      return Ok(Plain(BlockNode(items)));
    }

    /** The `{` branch of `parsePrimary`: a map literal; `{}` is a NoneNode. */
    method ParseMapLiteral(next: Token) returns (r: Result<Node>)
      requires S.Current(lines, At()).kind == LeftBrace && next == S.Peek(lines, At())
      modifies this
      ensures Agrees(r, S.MapLiteral(lines, old(At())), At())
      decreases S.Remaining(lines, At()), 4
    {
      if next.kind == RightBrace {
        return Ok(Plain(NoneNode));
      }
      var entries :- ParseMapEntries();
      var _ :- Consume(RightBrace, "Expected '}' after map arguments");
      return Ok(Plain(BlockNode(entries)));
    }

    /** The Keyword branch of `parsePrimary`: `true`, `false`, `null`, `none` and `defiend`. */
    method ParseKeywordLiteral(tok: Token) returns (r: Result<Node>)
      requires tok == S.Current(lines, At()) && tok.kind == Keyword
      modifies this
      ensures Agrees(r, S.Primary(lines, old(At())), At())
      decreases S.Remaining(lines, At()), 4
    {
      if tok.value == "true" || tok.value == "false" {
        var _ := Advance();
        return Ok(Plain(NumberNode(if tok.value == "true" then 1 else 0, SimpleTypeNode("i1"))));
      } else if tok.value == "null" {
        var _ := Advance();
        return Ok(Plain(NullNode));
      } else if tok.value == "none" {
        var _ := Advance();
        return Ok(Plain(NoneNode));
      } else if tok.value == "defiend" {
        var _ := Advance();
        var arg :- ParseExpression();
        return Ok(Plain(CallNode("defiend", [arg])));
      }
      return Err(S.UnknownPrimaryMessage(tok));
    }

    /** The arguments of a call: none when `)` follows, else expressions while a comma is matched. */
    method ParseArguments() returns (r: Result<seq<Node>>)
      modifies this
      ensures Agrees(r, S.CallArguments(lines, old(At())), At())
      decreases S.Remaining(lines, At()), 11
    {
      var args: seq<Node> := [];
      var closes := Check(RightParen);
      if closes {
        return Ok(args);
      }
      while true
        invariant S.ArgumentList(lines, At(), args) == S.CallArguments(lines, old(At()))
        invariant lineIndex == old(lineIndex) && S.Remaining(lines, At()) <= S.Remaining(lines, old(At()))
        decreases S.Remaining(lines, At())
      {
        var e :- ParseExpression();
        args := args + [e];
        var more := Match(Comma);
        if !more {
          break;
        }
      }
      return Ok(args);
    }

    /** The do-while of an array literal. */
    method ParseArrayItems() returns (r: Result<seq<Node>>)
      requires S.AtToken(lines, At())
      modifies this
      ensures Agrees(r, S.ArrayItems(lines, old(At()), []), At())
      decreases S.Remaining(lines, At()), 1
    {
      var items: seq<Node> := [];
      while true
        invariant S.AtToken(lines, At())
        invariant S.ArrayItems(lines, At(), items) == S.ArrayItems(lines, old(At()), [])
        invariant lineIndex == old(lineIndex) && S.Remaining(lines, At()) <= S.Remaining(lines, old(At()))
        decreases S.Remaining(lines, At())
      {
        var _ := Advance();
        var e :- ParseExpression();
        items := items + [e];
        var tok := Current();
        if tok.kind != Comma {
          break;
        }
      }
      return Ok(items);
    }

    /** The do-while of a map literal. */
    method ParseMapEntries() returns (r: Result<seq<Node>>)
      requires S.AtToken(lines, At())
      modifies this
      ensures Agrees(r, S.MapEntries(lines, old(At()), []), At())
      decreases S.Remaining(lines, At()), 1
    {
      var entries: seq<Node> := [];
      while true
        invariant S.AtToken(lines, At())
        invariant S.MapEntries(lines, At(), entries) == S.MapEntries(lines, old(At()), [])
        invariant lineIndex == old(lineIndex) && S.Remaining(lines, At()) <= S.Remaining(lines, old(At()))
        decreases S.Remaining(lines, At())
      {
        var _ := Advance();
        var keyTok := Current();
        var key :- ParseExpression();
        var _ :- Consume(Colon, "Expected : after key");
        var value :- ParseExpression();
        entries := entries + [Plain(KeyValueNode(key, value, keyTok.value))];
        var tok := Current();
        if tok.kind != Comma {
          break;
        }
      }
      return Ok(entries);
    }

    /** `parseDotNotation`: the link gets the member name after `.`, and a call when `(` follows it. */
    method ParseDotNotation(lastName: string) returns (r: Result<S.AccessLink>)
      requires S.Check(lines, At(), Dot)
      modifies this
      ensures Agrees(r, S.DotNotation(lines, old(At()), lastName), At())
      decreases S.Remaining(lines, At()), 1
    {
      var _ := Advance();
      var isName := Check(Identifier);
      var isType := Check(Type);
      if !(isName || isType) {
        return Err("Expected Identifier or Type after dot notation");
      }
      var nameTok := Current();
      var next := Peek();
      if next.kind == LeftParen {
        var call :- ParseCall();
        return Ok(S.AccessLink(nameTok.value, ".", Some(call)));
      }
      var _ := Advance();
      return Ok(S.AccessLink(nameTok.value, ".", Option.None));
    }

    /** `parseArrayNotation`: `[`, a non-empty index expression, `]`. */
    method ParseArrayNotation(lastName: string) returns (r: Result<S.AccessLink>)
      requires S.Check(lines, At(), LeftBracket)
      modifies this
      ensures Agrees(r, S.ArrayNotation(lines, old(At()), lastName), At())
      decreases S.Remaining(lines, At()), 1
    {
      var _ := Advance();
      var empty := Check(RightBracket);
      if empty {
        return Err("Expected primary-expression before ']'");
      }
      var e :- ParseExpression();
      var _ :- Consume(RightBracket, "Expected ']' after array notation");
      return Ok(S.AccessLink(lastName, "[]", Some(e)));
    }

    /**
     * `parseMemberExpression`: a root Identifier or Type, then the links of the chain;
     * with no link it is a plain identifier.
     */
    method ParseMemberExpression() returns (r: Result<Node>)
      modifies this
      ensures Agrees(r, S.MemberExpression(lines, old(At())), At())
      decreases S.Remaining(lines, At()), 4
    {
      var isName := Check(Identifier);
      var isType := Check(Type);
      if !(isName || isType) {
        return Err("Expected type or identifier in member expression");
      }
      var rootTok := Current();
      var _ := Advance();
      var links :- ParseAccessLinks(rootTok.value);
      if links == [] {
        return Ok(Plain(IdentifierNode(rootTok.value)));
      }
      return Ok(Plain(AccessExpression(rootTok.value, "", Option.None, S.Chain(links))));
    }

    /** The while-loop of `parseMemberExpression`: one link per `.`, `[` or (after a name) `(`. */
    method ParseAccessLinks(rootName: string) returns (r: Result<seq<S.AccessLink>>)
      modifies this
      ensures Agrees(r, S.AccessLinks(lines, old(At()), rootName, []), At())
      decreases S.Remaining(lines, At()), 3
    {
      var links: seq<S.AccessLink> := [];
      var lastName := rootName;
      while true
        invariant links != [] ==> lastName == links[|links| - 1].name
        invariant S.AccessLinks(lines, At(), lastName, links) == S.AccessLinks(lines, old(At()), rootName, [])
        invariant lineIndex == old(lineIndex) && S.Remaining(lines, At()) <= S.Remaining(lines, old(At()))
        decreases S.Remaining(lines, At())
      {
        var dot := Check(Dot);
        var bracket := Check(LeftBracket);
        var paren := Check(LeftParen);
        if !(dot || bracket || (paren && |lastName| > 0)) {
          break;
        }
        var link :- ParseAccessStep(lastName);
        links := links + [link];
        lastName := link.name;
      }
      return Ok(links);
    }

    /** One pass of the member loop: the notation the current token starts. */
    method ParseAccessStep(lastName: string) returns (r: Result<S.AccessLink>)
      requires S.ContinuesChain(lines, At(), lastName)
      modifies this
      ensures Agrees(r, S.AccessStep(lines, old(At()), lastName), At())
      decreases S.Remaining(lines, At()), 2
    {
      var dot := Check(Dot);
      var bracket := Check(LeftBracket);
      if dot {
        r := ParseDotNotation(lastName);
      } else if bracket {
        r := ParseArrayNotation(lastName);
      } else {
        // the current token is `(`, so `parseCall` finds no callee name and raises
        var call := ParseCall();
        assert call.Err?;
        return Err(call.msg);
      }
    }

    /** `parseCall`: callee, `(`, arguments, `)`. */
    method ParseCall() returns (r: Result<Node>)
      modifies this
      ensures Agrees(r, S.Call(lines, old(At())), At())
      decreases S.Remaining(lines, At()), 1
    {
      var callee := Current();
      var _ :- Consume(Identifier, "Expected function name");
      var _ :- Consume(LeftParen, "Expected '(' after function name");
      var args :- ParseArguments();
      var _ :- Consume(RightParen, "Expected ')' after function arguments");
      return Ok(Plain(CallNode(callee.value, args)));
    }

    /**
     * `parse`: one statement per line until the end of the file or a None token; a
     * statement that leaves tokens on the line it started on is an error.
     */
    method Parse() returns (r: Result<Node>)
      requires 0 <= lineIndex <= |lines|
      modifies this
      ensures r == T.Program(lines, old(At()), moduleName)
    {
      var body: seq<Node> := [];
      while true
        invariant 0 <= lineIndex <= |lines|
        invariant T.ProgramLoop(lines, At(), body) == T.ProgramLoop(lines, old(At()), [])
        decreases S.LinesLeft(lines, At())
      {
        var eof := IsEndOfFile();
        if eof {
          break;
        }
        var none := Check(TokenType.None);
        if none {
          break;
        }
        var currentLine := lineIndex;
        var statement :- ParseStatement();
        if statement.Some? {
          body := body + [statement.value];
        }
        var eol := IsEndOfLine();
        if !eol && currentLine == lineIndex {
          var t := Current();
          return Err("Character(" + t.value + ") not parsed at the end of");
        }
        var more := NextLine();
        if !more {
          break;
        }
      }
      return Ok(Plain(ProgramNode(body, moduleName)));
    }

    /** `parseStatement`: dispatch on the current token, the next one and the line's last one. */
    method ParseStatement() returns (r: Result<Option<Node>>)
      requires 0 <= lineIndex < |lines|
      modifies this
      ensures Agrees(r, T.Statement(lines, old(At())), At())
      decreases S.LinesLeft(lines, At()), 2
    {
      var tok := Current();
      var last := GetLastTokenInCurrentLine();
      var next := Peek();
      if tok.kind == LeftBracket && last.kind == RightParen {
        var f :- ParseFunction();
        return Ok(Some(f));
      } else if tok.kind == Keyword && tok.value == "use" {
        return Err("Unsupported statement: use");
      } else if tok.kind == LeftBracket && next.value == "struct" {
        var s :- ParseStruct();
        return Ok(Some(s));
      } else if tok.kind == Keyword && tok.value == "if" {
        var s :- ParseIf();
        return Ok(Some(s));
      } else if tok.kind == Keyword && tok.value == "for" {
        var s :- ParseFor();
        return Ok(Some(s));
      } else if tok.kind == Keyword && tok.value == "while" {
        var s :- ParseWhile();
        return Ok(Some(s));
      } else if tok.kind == Keyword && tok.value == "return" {
        var s :- ParseReturn();
        return Ok(Some(s));
      } else if tok.kind == Keyword && tok.value == "break" {
        return Ok(Some(Plain(BreakNode)));
      } else if tok.kind == Keyword && tok.value == "continue" {
        return Ok(Some(Plain(ContinueNode)));
      } else if tok.kind == Identifier && (next.kind == Dot || next.kind == LeftBracket) {
        r := ParseMemberStatement();
      } else if tok.kind == Identifier && next.kind == Operator {
        var s :- ParseAssignment(false);
        return Ok(Some(s));
      } else if tok.kind == Type {
        var s :- ParseAssignment(false);
        return Ok(Some(s));
      } else if tok.kind == Keyword && tok.value == "const" && next.kind == Type {
        var s :- ParseAssignment(true);
        return Ok(Some(s));
      } else if tok.kind == Keyword && tok.value == "final" && next.kind == Identifier {
        var s :- ParseAssignment(true);
        return Ok(Some(s));
      } else if tok.kind == Identifier && next.kind == LeftParen {
        var s :- ParseCall();
        return Ok(Some(s));
      } else if tok.kind == LeftParen {
        var s :- ParseExpression();
        return Ok(Some(s));
      } else if tok.line != -1 {
        return Err("Unknown statement");
      } else {
        return Ok(Option.None);
      }
    }

    /** The member-expression statement: alone, or reassigned with `=`. */
    method ParseMemberStatement() returns (r: Result<Option<Node>>)
      modifies this
      ensures Agrees(r, T.MemberStatement(lines, old(At())), At())
    {
      var member :- ParseMemberExpression();
      var eol := IsEndOfLine();
      var op := Check(Operator);
      if !eol && op {
        var t := Current();
        if t.value == "=" {
          var _ := Advance();
          var e :- ParseExpression();
          return Ok(Some(Plain(ReassignMemberNode(member, e))));
        }
        return Err("Expected = symbol when assigning value to member expression");
      }
      return Ok(Some(member));
    }

    /** `parseBlock(expected)`: the statements of the lines indented exactly `expected` Pipes. */
    method ParseBlock(expected: int) returns (r: Result<Node>)
      requires 0 <= lineIndex <= |lines|
      modifies this
      ensures Agrees(r, T.Block(lines, old(At()), expected), At())
      decreases S.LinesLeft(lines, At()), 4
    {
      var statements: seq<Node> := [];
      while true
        invariant old(lineIndex) <= lineIndex <= |lines|
        invariant S.LinesLeft(lines, At()) <= S.LinesLeft(lines, old(At()))
        invariant T.BlockLoop(lines, At(), expected, statements) == T.BlockLoop(lines, old(At()), expected, [])
        decreases S.LinesLeft(lines, At())
      {
        var eof := IsEndOfFile();
        if eof {
          break;
        }
        var actual := GetIndentLevel(lines[lineIndex]);
        if actual < expected {
          break;
        }
        if actual > expected {
          var t := Current();
          return Err("Unexpected indentation at line " + Text.IntToString(lineIndex) + " at " + t.value);
        }
        tokenIndex := actual;
        var stmt :- ParseStatement();
        if stmt.Some? {
          statements := statements + [stmt.value];
        }
        var _ := NextLine();
      }
      return Ok(Plain(BlockNode(statements)));
    }

    /** `parseFunction`: the header, its parameters and the body one level deeper. */
    method ParseFunction() returns (r: Result<Node>)
      requires 0 <= lineIndex < |lines|
      modifies this
      ensures Agrees(r, T.Function(lines, old(At())), At())
      decreases S.LinesLeft(lines, At()), 1
    {
      var head :- ParseFunctionHead();
      r := ParseFunctionRest(head.0, head.1);
    }

    /** The parameter clause and the body after a function's name. */
    method ParseFunctionRest(returnType: TypeNode, name: string) returns (r: Result<Node>)
      requires 0 <= lineIndex < |lines|
      modifies this
      ensures Agrees(r, T.FunctionRest(lines, old(At()), returnType, name), At())
      decreases S.LinesLeft(lines, At()), 1, 0
    {
      var parameters :- ParseParameterClause();
      var body :- ParseBody();
      return Ok(Plain(FunctionNode(name, "", returnType, parameters, [], body)));
    }

    /** The nested block after a header line, and the `lineIndex--` that follows it. */
    method ParseBody() returns (r: Result<Node>)
      requires 0 <= lineIndex < |lines|
      modifies this
      ensures Agrees(r, T.Body(lines, old(At())), At())
      decreases S.LinesLeft(lines, At()), 0
    {
      var expected := GetIndentLevel(lines[lineIndex]);
      expected := expected + 1;
      var _ := NextLine();
      var body :- ParseBlock(expected);
      lineIndex := lineIndex - 1;
      return Ok(body);
    }

    /** `[` return type `]` name. */
    method ParseFunctionHead() returns (r: Result<(TypeNode, string)>)
      modifies this
      ensures Agrees(r, T.FunctionHead(lines, old(At())), At())
    {
      var _ :- Consume(LeftBracket, "Expected '[' before function declaration");
      var returnType :- GetFullType();
      var _ :- Consume(RightBracket, "Expected ']' before function declaration");
      var nameTok := Current();
      var _ :- Consume(Identifier, "Expected identifier");
      return Ok((returnType, nameTok.value));
    }

    /** `(` typed parameters `)`. */
    method ParseParameterClause() returns (r: Result<seq<Param>>)
      modifies this
      ensures Agrees(r, T.ParameterClause(lines, old(At())), At())
    {
      var paren := Check(LeftParen);
      if !paren {
        var t := Current();
        return Err(T.LocatedMessage("Parser Error: Expected '(' after function name", t));
      }
      var _ := Advance();
      var parameters :- ParseParameters();
      var _ :- Consume(RightParen, "Expected ')' after function parameters");
      return Ok(parameters);
    }

    /** The parameter list of `parseFunction`: empty at `)`, else the do-while over `type : name`. */
    method ParseParameters() returns (r: Result<seq<Param>>)
      modifies this
      ensures Agrees(r, T.Parameters(lines, old(At())), At())
    {
      var closing := Check(RightParen);
      if closing {
        return Ok([]);
      }
      var parameters: seq<Param> := [];
      while true
        invariant T.ParameterList(lines, At(), parameters) == T.ParameterList(lines, old(At()), [])
        invariant lineIndex == old(lineIndex) && S.Remaining(lines, At()) <= S.Remaining(lines, old(At()))
        decreases S.Remaining(lines, At())
      {
        var paramType :- GetFullType();
        var _ :- Consume(Colon, "Expected ':' after parameter type");
        var nameTok := Current();
        var _ :- Consume(Identifier, "Expected identifier");
        parameters := parameters + [Param(paramType, nameTok.value)];
        var more := Match(Comma);
        if !more {
          break;
        }
      }
      return Ok(parameters);
    }

    /** `parseIf`: condition, then-block, and an `else` block found by looking back at index `expected - 2`. */
    method ParseIf() returns (r: Result<Node>)
      requires 0 <= lineIndex < |lines|
      modifies this
      ensures Agrees(r, T.If(lines, old(At())), At())
      decreases S.LinesLeft(lines, At()), 1
    {
      var _ :- Consume(Keyword, "Expected 'if' keyword");
      var condition :- ParseExpression();
      var expected := GetIndentLevel(lines[lineIndex]);
      expected := expected + 1;
      r := ParseIfBlocks(condition, expected);
    }

    /** The rest of `parseIf`: the then-block, and the `else` test at token index `expected - 2`. */
    method ParseIfBlocks(condition: Node, expected: int) returns (r: Result<Node>)
      requires 0 <= lineIndex < |lines|
      modifies this
      ensures Agrees(r, T.IfBlocks(lines, old(At()), condition, expected), At())
      decreases S.LinesLeft(lines, At()), 0
    {
      var _ := NextLine();
      var thenBlock :- ParseBlock(expected);
      tokenIndex := expected - 2;
      var elseBlock :- ParseElseBranch(expected);
      lineIndex := lineIndex - 1;
      return Ok(Plain(IfNode(condition, thenBlock, elseBlock)));
    }

    /** The optional `else` block of `parseIf`. */
    method ParseElseBranch(expected: int) returns (r: Result<Option<Node>>)
      requires 0 <= lineIndex <= |lines|
      modifies this
      ensures Agrees(r, T.ElseBranch(lines, old(At()), expected), At())
      decreases S.LinesLeft(lines, At()), 0
    {
      var pipe := Check(Pipe);
      var next := Peek();
      if pipe && next.value == "else" {
        var _ := NextLine();
        var elseBlock :- ParseBlock(expected);
        return Ok(Some(elseBlock));
      }
      return Ok(Option.None);
    }

    /** `parseFor`: the header, then the body. */
    method ParseFor() returns (r: Result<Node>)
      requires 0 <= lineIndex < |lines|
      modifies this
      ensures Agrees(r, T.For(lines, old(At())), At())
      decreases S.LinesLeft(lines, At()), 1
    {
      var head :- ParseForHead();
      var body :- ParseBody();
      return Ok(Plain(ForNode(head.0, head.1, body)));
    }

    /** The `for` header: iteration variable, the `in` test and the iterable. */
    method ParseForHead() returns (r: Result<(string, Node)>)
      modifies this
      ensures Agrees(r, T.ForHead(lines, old(At())), At())
    {
      var _ :- Consume(Keyword, "Expected 'for' keyword");
      var variable := Current();
      var _ :- Consume(Identifier, "Expected identifier");
      var t := Current();
      if t.kind != Keyword && t.value != "in" {
        return Err(T.LocatedMessage("Parser Error: Expected 'in' keyword", t));
      }
      var _ :- Consume(Keyword, "Expected 'in' keyword");
      var iterable :- ParseExpression();
      return Ok((variable.value, iterable));
    }

    /** `parseWhile`: condition and body. */
    method ParseWhile() returns (r: Result<Node>)
      requires 0 <= lineIndex < |lines|
      modifies this
      ensures Agrees(r, T.While(lines, old(At())), At())
      decreases S.LinesLeft(lines, At()), 1
    {
      var _ :- Consume(Keyword, "Expected 'while' keyword");
      var condition :- ParseExpression();
      var body :- ParseBody();
      return Ok(Plain(WhileNode(condition, body)));
    }

    /** `parseStruct`: `[struct] Name` and its body. */
    method ParseStruct() returns (r: Result<Node>)
      requires 0 <= lineIndex < |lines|
      modifies this
      ensures Agrees(r, T.Struct(lines, old(At())), At())
      decreases S.LinesLeft(lines, At()), 1
    {
      var name :- ParseDeclarationHead("Expected 'struct' keyword");
      var body :- ParseBody();
      return Ok(Plain(StructNode(name, body)));
    }

    /** `[`, the declaration keyword, `]`, the name. */
    method ParseDeclarationHead(keywordMsg: string) returns (r: Result<string>)
      modifies this
      ensures Agrees(r, T.DeclarationHead(lines, old(At()), keywordMsg), At())
    {
      var _ :- Consume(LeftBracket, "Expected '[' before struct declaration");
      var _ :- Consume(Type, keywordMsg);
      var _ :- Consume(RightBracket, "Expected ']' before struct declaration");
      var nameTok := Current();
      var _ :- Consume(Identifier, "Expected identifier");
      return Ok(nameTok.value);
    }

    /** `parseReturn`: the keyword and an expression. */
    method ParseReturn() returns (r: Result<Node>)
      modifies this
      ensures Agrees(r, T.Return(lines, old(At())), At())
    {
      var _ :- Consume(Keyword, "Expected 'return' keyword");
      var e :- ParseExpression();
      return Ok(Plain(ReturnNode(e)));
    }

    /** `parseAssignment(isConst)`: the `const`/`final` keyword when `isConst`, then the declaration. */
    method ParseAssignment(isConst: bool) returns (r: Result<Node>)
      modifies this
      ensures Agrees(r, T.Assignment(lines, old(At()), isConst), At())
    {
      if isConst {
        var keyword := Current();
        if keyword.value != "const" && keyword.value != "final" {
          return Err(T.LocatedMessage("Parser Error: Expected 'const' or 'final'", keyword));
        }
        var _ := Advance();
      }
      r := ParseDeclaration(isConst);
    }

    /** The four forms of `parseAssignment`. */
    method ParseDeclaration(isConst: bool) returns (r: Result<Node>)
      modifies this
      ensures Agrees(r, T.Declaration(lines, old(At()), isConst), At())
    {
      var tok := Current();
      var next := Peek();
      if tok.kind == Type && tok.value != "array" && tok.value != "map" {
        var _ := Advance();  // `consume(Type)` after the kind was tested
        var nameTok := Current();
        var _ :- Consume(Identifier, "Expected identifier");
        r := ParseOptionalInitializer(nameTok.value, isConst, SimpleTypeNode(tok.value));
      } else if tok.kind == Identifier && next.value == "^=" {
        var _ := Advance();  // `consume(Identifier)` after the kind was tested
        var op := Check(Operator);
        var opTok := Current();
        if !op || opTok.value != "^=" {
          return Err(T.LocatedMessage("Parser Error: Expected '^=' operator after static variable declaration", opTok));
        }
        var _ := Advance();
        var e :- ParseExpression();
        return Ok(Plain(VariableAssignNode(tok.value, isConst, SimpleTypeNode("auto"), e)));
      } else if tok.kind == Identifier && next.value == "=" {
        var _ := Advance();  // `consume(Identifier)` after the kind was tested
        var _ :- Consume(Operator, "Expected = operator");
        var e :- ParseExpression();
        return Ok(Plain(VariableReassignNode(tok.value, e)));
      } else {
        var varType :- GetFullType();
        var nameTok := Current();
        var _ :- Consume(Identifier, "Expected identifier");
        r := ParseOptionalInitializer(nameTok.value, isConst, varType);
      }
    }

    /** After a typed name: a NoneNode initializer without `=`, else the expression after it. */
    method ParseOptionalInitializer(name: string, isConst: bool, varType: TypeNode) returns (r: Result<Node>)
      modifies this
      ensures Agrees(r, T.OptionalInitializer(lines, old(At()), name, isConst, varType), At())
    {
      var op := Check(Operator);
      var opTok := Current();
      if !op || opTok.value != "=" {
        return Ok(Plain(VariableAssignNode(name, isConst, varType, Plain(NoneNode))));
      }
      var _ := Advance();
      var e :- ParseExpression();
      return Ok(Plain(VariableAssignNode(name, isConst, varType, e)));
    }

    /**
     * `parseClass`: `[class] Name`, then one or two `public:`/`private:` sections
     * whose keyword sits at index `expected - 1` of the line after the header.
     */
    method ParseClass() returns (r: Result<Node>)
      requires 0 <= lineIndex < |lines|
      modifies this
      ensures Agrees(r, T.Class(lines, old(At())), At())
    {
      var name :- ParseDeclarationHead("Expected 'class' keyword");
      r := ParseClassBody(name);
    }

    /** The access sections on the lines below a class header. */
    method ParseClassBody(name: string) returns (r: Result<Node>)
      requires 0 <= lineIndex < |lines|
      modifies this
      ensures Agrees(r, T.ClassBody(lines, old(At()), name), At())
    {
      ghost var afterHead := At();
      var _ := NextLine();
      var expected := GetIndentLevel(S.LineAt(lines, lineIndex));
      expected := expected + 1;
      tokenIndex := expected - 1;
      ghost var c5 := S.NextLine(lines, afterHead).1;
      assert At() == c5.(ti := expected - 1);
      assert expected == S.IndentLevel(S.LineAt(lines, c5.li)) + 1;
      assert T.ClassBody(lines, afterHead, name) == T.ClassAt(lines, At(), expected, name);
      r := ParseClassAt(expected, name);
    }

    /** The access sections from the first keyword's position, and the `lineIndex--` that follows them. */
    method ParseClassAt(expected: int, name: string) returns (r: Result<Node>)
      modifies this
      ensures Agrees(r, T.ClassAt(lines, old(At()), expected, name), At())
    {
      var bodies :- ParseClassSections(expected);
      lineIndex := lineIndex - 1;
      return Ok(Plain(ClassNode(name, bodies.0, bodies.1)));
    }

    /** The required first access section and the optional second one, as (public, private) blocks. */
    method ParseClassSections(expected: int) returns (r: Result<(Option<Node>, Option<Node>)>)
      modifies this
      ensures Agrees(r, T.ClassSections(lines, old(At()), expected), At())
    {
      ghost var a := At();
      var access := Current();
      if !T.IsAccessKeyword(access) {
        return Err("Expected access expression after class statement");
      }
      var first :- ParseAccessSection(expected, "Expected access expression after class statement");
      var publicBody: Option<Node> := Option.None;
      var privateBody: Option<Node> := Option.None;
      if access.value == "public" {
        publicBody := Some(first);
      } else {
        privateBody := Some(first);
      }
      tokenIndex := expected - 1;
      assert T.ClassSections(lines, a, expected) == T.OptionalSection(lines, At(), expected, publicBody, privateBody);
      r := ParseOptionalSection(expected, publicBody, privateBody);
    }

    /** The second access section, when the keyword is there. */
    method ParseOptionalSection(expected: int, publicBody: Option<Node>, privateBody: Option<Node>)
      returns (r: Result<(Option<Node>, Option<Node>)>)
      modifies this
      ensures Agrees(r, T.OptionalSection(lines, old(At()), expected, publicBody, privateBody), At())
    {
      var access := Current();
      if !T.IsAccessKeyword(access) {
        return Ok((publicBody, privateBody));
      }
      var second :- ParseAccessSection(expected, "Expected keyword");
      if access.value == "public" {
        return Ok((Some(second), privateBody));
      }
      return Ok((publicBody, Some(second)));
    }

    /** An access keyword, `:`, and the block below it. */
    method ParseAccessSection(expected: int, keywordMsg: string) returns (r: Result<Node>)
      modifies this
      ensures Agrees(r, T.AccessSection(lines, old(At()), expected, keywordMsg), At())
    {
      var _ :- Consume(Keyword, keywordMsg);
      var _ :- Consume(Colon, "Expected : after class access expression");
      var _ := NextLine();
      r := ParseBlock(expected);
    }
  }
}
