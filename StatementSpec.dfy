/**
 * The statement grammar: indentation blocks, declarations, control flow and the
 * top-level line loop, as functions of the token lines and a cursor.
 */
module StatementSpec {
  import opened Wrappers
  import opened Tokens
  import opened Ast
  import opened ParserSpec
  import Text

  /** A successful statement parse ends on a line of the file at or after the one it started on. */
  predicate InLines<T>(lines: Lines, c: Cursor, r: Result<(T, Cursor)>)
  {
    r.Ok? ==> c.li <= r.value.1.li < |lines|
  }

  /** Where a block stops: the end of the file, or a line indented less than `expected`. */
  predicate EndsBlock(lines: Lines, c: Cursor, expected: int)
  {
    c.li == |lines| || (0 <= c.li < |lines| && IndentLevel(lines[c.li]) < expected)
  }

  /** The error text the parser builds from a message and the token it is looking at. */
  function LocatedMessage(prefix: string, t: Token): string
  {
    prefix + " at line " + Text.IntToString(t.line) + ", column " + Text.IntToString(t.column) + ": " + t.value
  }

  /** `parseBlock(expected)`: the statements of the lines indented exactly `expected` Pipes. */
  function Block(lines: Lines, c: Cursor, expected: int): (r: Result<(Node, Cursor)>)
    requires 0 <= c.li <= |lines|
    ensures r.Ok? ==> c.li <= r.value.1.li <= |lines| && EndsBlock(lines, r.value.1, expected)
    ensures r.Ok? ==> r.value.0.kind.BlockNode?
    decreases LinesLeft(lines, c), 4
  {
    var stmts :- BlockLoop(lines, c, expected, []);
    Ok((Plain(BlockNode(stmts.0)), stmts.1))
  }

  /**
   * The while-loop of `parseBlock`: stop at the end of the file or at a shallower line,
   * raise on a deeper one, otherwise skip the Pipes, parse one statement, keep it when
   * it is not null and go to the next line.
   */
  function BlockLoop(lines: Lines, c: Cursor, expected: int, acc: seq<Node>): (r: Result<(seq<Node>, Cursor)>)
    requires 0 <= c.li <= |lines|
    ensures r.Ok? ==> c.li <= r.value.1.li <= |lines| && EndsBlock(lines, r.value.1, expected)
    ensures r.Ok? ==> |r.value.0| >= |acc|
    decreases LinesLeft(lines, c), 3
  {
    if IsEndOfFile(lines, c) then Ok((acc, c))
    else
      var actual := IndentLevel(lines[c.li]);
      if actual < expected then Ok((acc, c))
      else if actual > expected then
        Err("Unexpected indentation at line " + Text.IntToString(c.li) + " at " + Current(lines, c).value)
      else
        var s :- Statement(lines, Cursor(c.li, actual));
        BlockLoop(lines, NextLine(lines, s.1).1, expected, if s.0.Some? then acc + [s.0.value] else acc)
  }

  /**
   * `parseStatement`: dispatch on the leading tokens. `None` is the null pointer the
   * source returns for a line that starts with the sentinel token.
   */
  function Statement(lines: Lines, c: Cursor): (r: Result<(Option<Node>, Cursor)>)
    requires 0 <= c.li < |lines|
    ensures InLines(lines, c, r)
    decreases LinesLeft(lines, c), 2
  {
    var tok := Current(lines, c);
    if tok.kind == LeftBracket && LastTokenInLine(lines, c).kind == RightParen then
      var f :- Function(lines, c);
      Ok((Some(f.0), f.1))
    else if tok.kind == Keyword && tok.value == "use" then
      Err("Unsupported statement: use")
    else if tok.kind == LeftBracket && Peek(lines, c).value == "struct" then
      var s :- Struct(lines, c);
      Ok((Some(s.0), s.1))
    else if tok.kind == Keyword && tok.value == "if" then
      var s :- If(lines, c);
      Ok((Some(s.0), s.1))
    else if tok.kind == Keyword && tok.value == "for" then
      var s :- For(lines, c);
      Ok((Some(s.0), s.1))
    else if tok.kind == Keyword && tok.value == "while" then
      var s :- While(lines, c);
      Ok((Some(s.0), s.1))
    else if tok.kind == Keyword && tok.value == "return" then
      var s :- Return(lines, c);
      Ok((Some(s.0), s.1))
    else if tok.kind == Keyword && tok.value == "break" then
      Ok((Some(Plain(BreakNode)), c))
    else if tok.kind == Keyword && tok.value == "continue" then
      Ok((Some(Plain(ContinueNode)), c))
    else if tok.kind == Identifier && (Peek(lines, c).kind == Dot || Peek(lines, c).kind == LeftBracket) then
      MemberStatement(lines, c)
    else if tok.kind == Identifier && Peek(lines, c).kind == Operator then
      var s :- Assignment(lines, c, false);
      Ok((Some(s.0), s.1))
    else if tok.kind == Type then
      var s :- Assignment(lines, c, false);
      Ok((Some(s.0), s.1))
    else if tok.kind == Keyword && tok.value == "const" && Peek(lines, c).kind == Type then
      var s :- Assignment(lines, c, true);
      Ok((Some(s.0), s.1))
    else if tok.kind == Keyword && tok.value == "final" && Peek(lines, c).kind == Identifier then
      var s :- Assignment(lines, c, true);
      Ok((Some(s.0), s.1))
    else if tok.kind == Identifier && Peek(lines, c).kind == LeftParen then
      var s :- Call(lines, c);
      Ok((Some(s.0), s.1))
    else if tok.kind == LeftParen then
      var s :- Expression(lines, c);
      Ok((Some(s.0), s.1))
    else if tok.line != -1 then
      Err("Unknown statement")
    else
      Ok((Option.None, c))
  }

  /**
   * A line starting with a member expression: alone it is the statement; followed by
   * `=` it is a member reassignment; followed by any other operator it is an error.
   */
  function MemberStatement(lines: Lines, c: Cursor): (r: Result<(Option<Node>, Cursor)>)
    ensures Stays(lines, c, r)
  {
    var m :- MemberExpression(lines, c);
    if !IsEndOfLine(lines, m.1) && Check(lines, m.1, Operator) then
      if Current(lines, m.1).value == "=" then
        var e :- Expression(lines, Advance(lines, m.1).1);
        Ok((Some(Plain(ReassignMemberNode(m.0, e.0))), e.1))
      else
        Err("Expected = symbol when assigning value to member expression")
    else
      Ok((Some(m.0), m.1))
  }

  /** The cursor after a nested block: `lineIndex--`, so that the caller's `nextLine` lands on the block's end line. */
  function StepBack(c: Cursor): Cursor
  {
    c.(li := c.li - 1)
  }

  /**
   * The nested block that follows a header line: one level deeper than the header,
   * starting on the next line. The cursor is then stepped back one line
   * (`lineIndex--`) so that the caller's `nextLine` lands on the line that ended it.
   */
  function Body(lines: Lines, c: Cursor): (r: Result<(Node, Cursor)>)
    requires 0 <= c.li < |lines|
    ensures InLines(lines, c, r)
    ensures r.Ok? ==> r.value.0.kind.BlockNode?
    decreases LinesLeft(lines, c), 0
  {
    var expected := IndentLevel(lines[c.li]) + 1;
    var body :- Block(lines, NextLine(lines, c).1, expected);
    Ok((body.0, StepBack(body.1)))
  }

  /** `parseFunction`: the header on one line, then the body. */
  function Function(lines: Lines, c: Cursor): (r: Result<(Node, Cursor)>)
    requires 0 <= c.li < |lines|
    ensures InLines(lines, c, r)
    ensures r.Ok? ==> r.value.0.kind.FunctionNode?
    decreases LinesLeft(lines, c), 1
  {
    var head :- FunctionHead(lines, c);
    FunctionRest(lines, head.1, head.0.0, head.0.1)
  }

  /** The parameter clause and the body that follow a function's name. */
  function FunctionRest(lines: Lines, c: Cursor, returnType: TypeNode, name: string): (r: Result<(Node, Cursor)>)
    requires 0 <= c.li < |lines|
    ensures InLines(lines, c, r)
    ensures r.Ok? ==> r.value.0.kind.FunctionNode? && r.value.0.kind.name == name && r.value.0.kind.returnType == returnType
    decreases LinesLeft(lines, c), 1, 0
  {
    var ps :- ParameterClause(lines, c);
    var body :- Body(lines, ps.1);
    Ok((Plain(FunctionNode(name, "", returnType, ps.0, [], body.0)), body.1))
  }

  /** The start of a function header: `[` return type `]` name. */
  function FunctionHead(lines: Lines, c: Cursor): (r: Result<((TypeNode, string), Cursor)>)
    ensures Consumes(lines, c, r)
  {
    var c1 :- Consume(lines, c, LeftBracket, "Expected '[' before function declaration");
    var rt :- FullType(lines, c1);
    var c2 :- Consume(lines, rt.1, RightBracket, "Expected ']' before function declaration");
    var name := Current(lines, c2).value;
    var c3 :- Consume(lines, c2, Identifier, "Expected identifier");
    Ok(((rt.0, name), c3))
  }

  /** The rest of a function header: `(` typed parameters `)`; a missing `(` is an error naming the token. */
  function ParameterClause(lines: Lines, c: Cursor): (r: Result<(seq<Param>, Cursor)>)
    ensures Consumes(lines, c, r)
  {
    if Check(lines, c, LeftParen) then
      var ps :- Parameters(lines, Advance(lines, c).1);
      var c1 :- Consume(lines, ps.1, RightParen, "Expected ')' after function parameters");
      Ok((ps.0, c1))
    else
      Err(LocatedMessage("Parser Error: Expected '(' after function name", Current(lines, c)))
  }

  /** The parameter list of a function: empty when `)` follows, else the comma-separated loop. */
  function Parameters(lines: Lines, c: Cursor): (r: Result<(seq<Param>, Cursor)>)
    ensures Stays(lines, c, r)
  {
    if Check(lines, c, RightParen) then Ok(([], c)) else ParameterList(lines, c, [])
  }

  /** One parameter: a type, `:`, a name. */
  function Parameter(lines: Lines, c: Cursor): (r: Result<(Param, Cursor)>)
    ensures Consumes(lines, c, r)
    decreases Remaining(lines, c), 0
  {
    var t :- FullType(lines, c);
    var c1 :- Consume(lines, t.1, Colon, "Expected ':' after parameter type");
    var pname := Current(lines, c1).value;
    var c2 :- Consume(lines, c1, Identifier, "Expected identifier");
    Ok((Param(t.0, pname), c2))
  }

  /** The do-while over parameters: a parameter, again while a comma is matched. */
  function ParameterList(lines: Lines, c: Cursor, acc: seq<Param>): (r: Result<(seq<Param>, Cursor)>)
    ensures Consumes(lines, c, r)
    ensures r.Ok? ==> |r.value.0| > |acc|
    decreases Remaining(lines, c), 1
  {
    var p :- Parameter(lines, c);
    var m := Match(lines, p.1, Comma);
    if m.0 then ParameterList(lines, m.1, acc + [p.0])
    else Ok((acc + [p.0], p.1))
  }

  /**
   * `parseIf`: the keyword, a condition, the then-block one level deeper; an `else`
   * is recognised when the line the block stopped on has a Pipe at index
   * `expected - 2` followed by `else`.
   */
  function If(lines: Lines, c: Cursor): (r: Result<(Node, Cursor)>)
    requires 0 <= c.li < |lines|
    ensures InLines(lines, c, r)
    ensures r.Ok? ==> r.value.0.kind.IfNode?
    decreases LinesLeft(lines, c), 1
  {
    var c1 :- Consume(lines, c, Keyword, "Expected 'if' keyword");
    var cond :- Expression(lines, c1);
    IfBlocks(lines, cond.1, cond.0, IndentLevel(lines[cond.1.li]) + 1)
  }

  /** The rest of `parseIf` once the condition is read: the then-block on the next lines, and the optional `else`. */
  function IfBlocks(lines: Lines, c: Cursor, condition: Node, expected: int): (r: Result<(Node, Cursor)>)
    requires 0 <= c.li < |lines|
    ensures InLines(lines, c, r)
    ensures r.Ok? ==> r.value.0.kind.IfNode?
    decreases LinesLeft(lines, c), 0
  {
    var thenBlock :- Block(lines, NextLine(lines, c).1, expected);
    var elseBlock :- ElseBranch(lines, thenBlock.1.(ti := expected - 2), expected);
    Ok((Plain(IfNode(condition, thenBlock.0, elseBlock.0)), StepBack(elseBlock.1)))
  }

  /** The optional `else` of `parseIf`: a Pipe followed by `else` at the cursor, and the block below it. */
  function ElseBranch(lines: Lines, c: Cursor, expected: int): (r: Result<(Option<Node>, Cursor)>)
    requires 0 <= c.li <= |lines|
    ensures r.Ok? ==> c.li <= r.value.1.li <= |lines|
    ensures r.Ok? && r.value.0.Some? ==> r.value.0.value.kind.BlockNode?
    decreases LinesLeft(lines, c), 0
  {
    if Check(lines, c, Pipe) && Peek(lines, c).value == "else" then
      var elseBlock :- Block(lines, NextLine(lines, c).1, expected);
      Ok((Some(elseBlock.0), elseBlock.1))
    else
      Ok((Option.None, c))
  }

  /**
   * `parseFor`: the header on one line, then the body. As written the `in` test only
   * rejects a token that is neither a Keyword nor spelled "in", and any Keyword is
   * then consumed in its place.
   */
  function For(lines: Lines, c: Cursor): (r: Result<(Node, Cursor)>)
    requires 0 <= c.li < |lines|
    ensures InLines(lines, c, r)
    ensures r.Ok? ==> r.value.0.kind.ForNode?
    decreases LinesLeft(lines, c), 1
  {
    var head :- ForHead(lines, c);
    var body :- Body(lines, head.1);
    Ok((Plain(ForNode(head.0.0, head.0.1, body.0)), body.1))
  }

  /** The header of `parseFor`: the keyword, the iteration variable, the `in` test and the iterable. */
  function ForHead(lines: Lines, c: Cursor): (r: Result<((string, Node), Cursor)>)
    ensures Consumes(lines, c, r)
  {
    var c1 :- Consume(lines, c, Keyword, "Expected 'for' keyword");
    var v := Current(lines, c1).value;
    var c2 :- Consume(lines, c1, Identifier, "Expected identifier");
    var t := Current(lines, c2);
    if t.kind != Keyword && t.value != "in" then
      Err(LocatedMessage("Parser Error: Expected 'in' keyword", t))
    else
      var c3 :- Consume(lines, c2, Keyword, "Expected 'in' keyword");
      var it :- Expression(lines, c3);
      Ok(((v, it.0), it.1))
  }

  /** `parseWhile`: the keyword, a condition, and the body one level deeper. */
  function While(lines: Lines, c: Cursor): (r: Result<(Node, Cursor)>)
    requires 0 <= c.li < |lines|
    ensures InLines(lines, c, r)
    ensures r.Ok? ==> r.value.0.kind.WhileNode?
    decreases LinesLeft(lines, c), 1
  {
    var c1 :- Consume(lines, c, Keyword, "Expected 'while' keyword");
    var cond :- Expression(lines, c1);
    var body :- Body(lines, cond.1);
    Ok((Plain(WhileNode(cond.0, body.0)), body.1))
  }

  /** `parseStruct`: `[` `struct` `]` name, then the body one level deeper. */
  function Struct(lines: Lines, c: Cursor): (r: Result<(Node, Cursor)>)
    requires 0 <= c.li < |lines|
    ensures InLines(lines, c, r)
    ensures r.Ok? ==> r.value.0.kind.StructNode?
    decreases LinesLeft(lines, c), 1
  {
    var head :- DeclarationHead(lines, c, "Expected 'struct' keyword");
    var body :- Body(lines, head.1);
    Ok((Plain(StructNode(head.0, body.0)), body.1))
  }

  /**
   * The header shared by `parseStruct` and `parseClass`: `[`, a Type token (`struct` or
   * `class`), `]`, and the name. Both use the struct wording for the bracket messages.
   */
  function DeclarationHead(lines: Lines, c: Cursor, keywordMsg: string): (r: Result<(string, Cursor)>)
    ensures Consumes(lines, c, r)
  {
    var c1 :- Consume(lines, c, LeftBracket, "Expected '[' before struct declaration");
    var c2 :- Consume(lines, c1, Type, keywordMsg);
    var c3 :- Consume(lines, c2, RightBracket, "Expected ']' before struct declaration");
    var name := Current(lines, c3).value;
    var c4 :- Consume(lines, c3, Identifier, "Expected identifier");
    Ok((name, c4))
  }

  /** `parseReturn`: the keyword and the returned expression. */
  function Return(lines: Lines, c: Cursor): (r: Result<(Node, Cursor)>)
    ensures Consumes(lines, c, r)
    ensures r.Ok? ==> r.value.0.kind.ReturnNode?
  {
    var c1 :- Consume(lines, c, Keyword, "Expected 'return' keyword");
    var e :- Expression(lines, c1);
    Ok((Plain(ReturnNode(e.0)), e.1))
  }

  predicate IsAssignOperator(lines: Lines, c: Cursor, op: string)
  {
    Check(lines, c, Operator) && Current(lines, c).value == op
  }

  /**
   * `parseAssignment(isConst)`: `Type name [= e]`, `name ^= e`, `name = e`, or a full
   * (possibly generic) type followed by `name [= e]`; a missing `= e` gives a NoneNode
   * initializer.
   */
  function Assignment(lines: Lines, c: Cursor, isConst: bool): (r: Result<(Node, Cursor)>)
    ensures Stays(lines, c, r)
  {
    if !isConst then Declaration(lines, c, isConst)
    else
      var kw := Current(lines, c);
      if kw.value != "const" && kw.value != "final" then
        Err(LocatedMessage("Parser Error: Expected 'const' or 'final'", kw))
      else
        Declaration(lines, Advance(lines, c).1, isConst)
  }

  /**
   * The four forms of `parseAssignment` once a `const`/`final` keyword is skipped. Where
   * the token's kind was just tested, its `consume` cannot fail and is a plain advance.
   */
  function Declaration(lines: Lines, c: Cursor, isConst: bool): (r: Result<(Node, Cursor)>)
    ensures Stays(lines, c, r)
  {
    var tok := Current(lines, c);
    if tok.kind == Type && tok.value != "array" && tok.value != "map" then
      var c1 := Advance(lines, c).1;
      var name := Current(lines, c1).value;
      var c2 :- Consume(lines, c1, Identifier, "Expected identifier");
      OptionalInitializer(lines, c2, name, isConst, SimpleTypeNode(tok.value))
    else if tok.kind == Identifier && Peek(lines, c).value == "^=" then
      var c1 := Advance(lines, c).1;
      if !IsAssignOperator(lines, c1, "^=") then
        Err(LocatedMessage("Parser Error: Expected '^=' operator after static variable declaration", Current(lines, c1)))
      else
        Initializer(lines, c1, tok.value, isConst, SimpleTypeNode("auto"))
    else if tok.kind == Identifier && Peek(lines, c).value == "=" then
      var c1 := Advance(lines, c).1;
      var c2 :- Consume(lines, c1, Operator, "Expected = operator");
      var e :- Expression(lines, c2);
      Ok((Plain(VariableReassignNode(tok.value, e.0)), e.1))
    else
      var t :- FullType(lines, c);
      var name := Current(lines, t.1).value;
      var c2 :- Consume(lines, t.1, Identifier, "Expected identifier");
      OptionalInitializer(lines, c2, name, isConst, t.0)
  }

  /** After a typed name: without `=` the initializer is a NoneNode, with it an expression. */
  function OptionalInitializer(lines: Lines, c: Cursor, name: string, isConst: bool, t: TypeNode): (r: Result<(Node, Cursor)>)
    ensures Stays(lines, c, r)
    ensures r.Ok? ==> r.value.0.kind.VariableAssignNode?
    ensures r.Ok? ==> r.value.0.kind == VariableAssignNode(name, isConst, t, r.value.0.kind.expression)
  {
    if !IsAssignOperator(lines, c, "=") then
      Ok((Plain(VariableAssignNode(name, isConst, t, Plain(NoneNode))), c))
    else
      Initializer(lines, c, name, isConst, t)
  }

  /** The common tail of `parseAssignment`: skip the assignment operator and parse the initializer. */
  function Initializer(lines: Lines, c: Cursor, name: string, isConst: bool, t: TypeNode): (r: Result<(Node, Cursor)>)
    ensures Stays(lines, c, r)
    ensures r.Ok? ==> r.value.0.kind.VariableAssignNode?
    ensures r.Ok? ==> r.value.0.kind == VariableAssignNode(name, isConst, t, r.value.0.kind.expression)
  {
    var e :- Expression(lines, Advance(lines, c).1);
    Ok((Plain(VariableAssignNode(name, isConst, t, e.0)), e.1))
  }

  /**
   * The while-loop of `parse`: stop at the end of the file or at a None token; parse a
   * statement, keep it when it is not null, raise when tokens are left on the line it
   * started on, and go to the next line.
   */
  function ProgramLoop(lines: Lines, c: Cursor, body: seq<Node>): (r: Result<seq<Node>>)
    requires 0 <= c.li <= |lines|
    ensures r.Ok? ==> |r.value| >= |body|
    decreases LinesLeft(lines, c)
  {
    if IsEndOfFile(lines, c) then Ok(body)
    else if Check(lines, c, TokenType.None) then Ok(body)
    else
      var s :- Statement(lines, c);
      var body' := if s.0.Some? then body + [s.0.value] else body;
      if !IsEndOfLine(lines, s.1) && c.li == s.1.li then
        Err("Character(" + Current(lines, s.1).value + ") not parsed at the end of")
      else
        var next := NextLine(lines, s.1);
        if !next.0 then Ok(body') else ProgramLoop(lines, next.1, body')
  }

  /**
   * `parse` from cursor `c` (a new parser starts at line 0, token 0): the program node
   * holding the module name and the statements of every line.
   */
  function Program(lines: Lines, c: Cursor, moduleName: string): (r: Result<Node>)
    requires 0 <= c.li <= |lines|
    ensures r.Ok? ==> r.value.kind.ProgramNode? && r.value.kind.moduleName == moduleName
  {
    var body :- ProgramLoop(lines, c, []);
    Ok(Plain(ProgramNode(body, moduleName)))
  }

  /** One access section of a class: `public:` or `private:` and the block below it. */
  function AccessSection(lines: Lines, c: Cursor, expected: int, keywordMsg: string): (r: Result<(Node, Cursor)>)
    ensures r.Ok? ==> c.li < r.value.1.li <= |lines| && r.value.0.kind.BlockNode?
  {
    var c1 :- Consume(lines, c, Keyword, keywordMsg);
    var c2 :- Consume(lines, c1, Colon, "Expected : after class access expression");
    Block(lines, NextLine(lines, c2).1, expected)
  }

  predicate IsAccessKeyword(t: Token)
  {
    t.kind == Keyword && (t.value == "public" || t.value == "private")
  }

  /**
   * `parseClass`: `[` `class` `]` name; on the next line a required `public:` or
   * `private:` section and an optional second one, each with a block one level deeper
   * than that line. A second section of the same kind replaces the first.
   */
  function Class(lines: Lines, c: Cursor): (r: Result<(Node, Cursor)>)
    requires 0 <= c.li < |lines|
    ensures r.Ok? ==> r.value.0.kind.ClassNode? && c.li <= r.value.1.li < |lines|
  {
    var head :- DeclarationHead(lines, c, "Expected 'class' keyword");
    ClassBody(lines, head.1, head.0)
  }

  /**
   * The class body after its header: the access sections start on the next line, one
   * level deeper than that line's own indentation; the cursor then steps back a line.
   */
  function ClassBody(lines: Lines, c: Cursor, name: string): (r: Result<(Node, Cursor)>)
    requires 0 <= c.li < |lines|
    ensures r.Ok? ==> r.value.0.kind.ClassNode? && r.value.0.kind.className == name
    ensures r.Ok? ==> c.li <= r.value.1.li < |lines|
  {
    var c5 := NextLine(lines, c).1;
    var expected := IndentLevel(LineAt(lines, c5.li)) + 1;
    ClassAt(lines, c5.(ti := expected - 1), expected, name)
  }

  /** The sections from the first access keyword's position; the cursor then steps back a line. */
  function ClassAt(lines: Lines, a: Cursor, expected: int, name: string): (r: Result<(Node, Cursor)>)
    ensures r.Ok? ==> r.value.0.kind.ClassNode? && r.value.0.kind.className == name
    ensures r.Ok? ==> a.li <= r.value.1.li < |lines|
  {
    var bodies :- ClassSections(lines, a, expected);
    Ok((Plain(ClassNode(name, bodies.0.0, bodies.0.1)), StepBack(bodies.1)))
  }

  /**
   * The sections of a class body from the access keyword's position: a first section is
   * required, a second is optional. The result is the (public, private) pair of blocks.
   */
  function ClassSections(lines: Lines, a: Cursor, expected: int): (r: Result<((Option<Node>, Option<Node>), Cursor)>)
    ensures r.Ok? ==> a.li < r.value.1.li <= |lines|
    ensures r.Ok? ==> r.value.0.0.Some? || r.value.0.1.Some?
  {
    var firstAccess := Current(lines, a);
    if !IsAccessKeyword(firstAccess) then Err("Expected access expression after class statement")
    else
      var first :- AccessSection(lines, a, expected, "Expected access expression after class statement");
      var pub := if firstAccess.value == "public" then Some(first.0) else Option.None;
      var priv := if firstAccess.value == "public" then Option.None else Some(first.0);
      OptionalSection(lines, first.1.(ti := expected - 1), expected, pub, priv)
  }

  /** The optional second section: absent, it leaves both blocks as they are; a repeated kind replaces the first. */
  function OptionalSection(lines: Lines, b: Cursor, expected: int, pub: Option<Node>, priv: Option<Node>)
    : (r: Result<((Option<Node>, Option<Node>), Cursor)>)
    ensures r.Ok? ==> b.li <= r.value.1.li && (b.li <= |lines| ==> r.value.1.li <= |lines|)
    ensures r.Ok? && (pub.Some? || priv.Some?) ==> r.value.0.0.Some? || r.value.0.1.Some?
  {
    var secondAccess := Current(lines, b);
    if !IsAccessKeyword(secondAccess) then Ok(((pub, priv), b))
    else
      var second :- AccessSection(lines, b, expected, "Expected keyword");
      if secondAccess.value == "public" then Ok(((Some(second.0), priv), second.1))
      else Ok(((pub, Some(second.0)), second.1))
  }
}
