/**
 * Properties of the statement grammar: where blocks stop, which `else` lines are
 * seen, what the top-level loop does with `break`, which tokens `parseFor` takes for
 * `in`, the forms of `parseAssignment`, and the order of a program's statements.
 */
module StatementRules {
  import opened Wrappers
  import opened Tokens
  import opened Ast
  import opened ParserSpec
  import opened StatementSpec
  import ParserRules
  import Text

  // ---------------------------------------------------------------------------------
  // Blocks
  // ---------------------------------------------------------------------------------

  /** At the end of the file or at a shallower line a block is empty and the cursor does not move. */
  lemma BlockStopsAtShallowerLine(lines: Lines, c: Cursor, expected: int)
    requires 0 <= c.li <= |lines| && EndsBlock(lines, c, expected)
    ensures Block(lines, c, expected) == Ok((Plain(BlockNode([])), c))
  {
  }

  /** A line indented deeper than the block expects is an error. */
  lemma BlockRejectsDeeperLine(lines: Lines, c: Cursor, expected: int)
    requires 0 <= c.li < |lines| && IndentLevel(lines[c.li]) > expected
    ensures Block(lines, c, expected) ==
      Err("Unexpected indentation at line " + Text.IntToString(c.li) + " at " + Current(lines, c).value)
  {
  }

  /**
   * An `if` on an unindented line never has an `else`: the else test looks at token
   * index `expected - 2`, which is -1 there.
   */
  lemma TopLevelIfHasNoElse(lines: Lines, c: Cursor)
    requires 0 <= c.li < |lines| && IndentLevel(lines[c.li]) == 0
    ensures If(lines, c).Ok? ==> If(lines, c).value.0.kind.elseBlock.None?
  {
    var c1 := Consume(lines, c, Keyword, "Expected 'if' keyword");
    if c1.Ok? {
      var cond := Expression(lines, c1.value);
      if cond.Ok? {
        assert cond.value.1.li == c.li;
        assert If(lines, c) == IfBlocks(lines, cond.value.1, cond.value.0, 1);
        var thenBlock := Block(lines, NextLine(lines, cond.value.1).1, 1);
        if thenBlock.Ok? {
          assert ElseBranch(lines, thenBlock.value.1.(ti := -1), 1) == Ok((Option.None, thenBlock.value.1.(ti := -1)));
        }
      }
    }
  }

  /**
   * On an indented line (depth at least one) the `else` line at the same depth is seen:
   * its Pipe at index `depth - 1` is followed by `else`.
   */
  lemma NestedElseIsSeen(lines: Lines, c: Cursor, depth: nat)
    requires depth >= 1 && 0 <= c.li < |lines| && depth < |lines[c.li]|
    requires forall k :: 0 <= k < depth ==> lines[c.li][k].kind == Pipe
    requires lines[c.li][depth].value == "else"
    ensures var b := ElseBranch(lines, Cursor(c.li, depth + 1 - 2), depth + 1);
      b.Ok? <==> Block(lines, Cursor(c.li + 1, 0), depth + 1).Ok?
    ensures var b := ElseBranch(lines, Cursor(c.li, depth + 1 - 2), depth + 1);
      b.Ok? ==> b.value.0.Some?
  {
    assert Check(lines, Cursor(c.li, depth - 1), Pipe);
  }

  // ---------------------------------------------------------------------------------
  // The top-level loop
  // ---------------------------------------------------------------------------------

  /**
   * `break` or `continue` on an unindented line is refused: the statement does not
   * consume its keyword, so the loop finds an unparsed token on the line.
   */
  lemma TopLevelJumpIsRejected(lines: Lines, c: Cursor, body: seq<Node>)
    requires 0 <= c.li < |lines|
    requires Current(lines, c).kind == Keyword
    requires Current(lines, c).value == "break" || Current(lines, c).value == "continue"
    ensures ProgramLoop(lines, c, body) == Err("Character(" + Current(lines, c).value + ") not parsed at the end of")
  {
  }

  /** The result of the top-level loop with `body` put in front of its statements. */
  function PrependAll(body: seq<Node>, r: Result<seq<Node>>): Result<seq<Node>>
  {
    match r
    case Ok(items) => Ok(body + items)
    case Err(e) => Err(e)
  }

  lemma PrependAllTwice(body: seq<Node>, x: Node, r: Result<seq<Node>>)
    ensures PrependAll(body, PrependAll([x], r)) == PrependAll(body + [x], r)
  {
    if r.Ok? {
      assert body + ([x] + r.value) == body + [x] + r.value;
    }
  }

  /** A program's statements are kept in line order; null statements are skipped. */
  lemma {:induction false} ProgramLoopInOrder(lines: Lines, c: Cursor, body: seq<Node>)
    requires 0 <= c.li <= |lines|
    ensures ProgramLoop(lines, c, body) == PrependAll(body, ProgramLoop(lines, c, []))
    decreases LinesLeft(lines, c)
  {
    if IsEndOfFile(lines, c) || Check(lines, c, TokenType.None) {
      assert body + [] == body;
    } else {
      var s := Statement(lines, c);
      if s.Ok? {
        var stuck := !IsEndOfLine(lines, s.value.1) && c.li == s.value.1.li;
        var next := NextLine(lines, s.value.1);
        if s.value.0.Some? {
          var x := s.value.0.value;
          assert [] + [x] == [x];
          if !stuck {
            assert ProgramLoop(lines, c, body) == ProgramLoop(lines, next.1, body + [x]);
            assert ProgramLoop(lines, c, []) == ProgramLoop(lines, next.1, [x]);
            ProgramLoopInOrder(lines, next.1, body + [x]);
            ProgramLoopInOrder(lines, next.1, [x]);
            PrependAllTwice(body, x, ProgramLoop(lines, next.1, []));
          }
        } else if !stuck {
          assert ProgramLoop(lines, c, body) == ProgramLoop(lines, next.1, body);
          assert ProgramLoop(lines, c, []) == ProgramLoop(lines, next.1, []);
          ProgramLoopInOrder(lines, next.1, body);
        }
      }
    }
  }

  // ---------------------------------------------------------------------------------
  // Loops and assignments
  // ---------------------------------------------------------------------------------

  /**
   * The `in` test of `parseFor` accepts any Keyword after the iteration variable and
   * nothing else: an Identifier spelled "in" passes the first test and then fails
   * the `consume(Keyword)`.
   */
  lemma ForInTest(lines: Lines, c: Cursor)
    requires Current(lines, c).kind == Keyword
    requires Current(lines, Cursor(c.li, c.ti + 1)).kind == Identifier
    ensures ForHead(lines, c).Ok? <==>
      Current(lines, Cursor(c.li, c.ti + 2)).kind == Keyword && Expression(lines, Cursor(c.li, c.ti + 3)).Ok?
  {
  }

  /** `Type name` with no `=` after it declares `name` with a NoneNode initializer. */
  lemma DeclarationWithoutValue(lines: Lines, c: Cursor, isConst: bool)
    requires Current(lines, c).kind == Type && Current(lines, c).value != "array" && Current(lines, c).value != "map"
    requires Current(lines, Cursor(c.li, c.ti + 1)).kind == Identifier
    requires !IsAssignOperator(lines, Cursor(c.li, c.ti + 2), "=")
    ensures Declaration(lines, c, isConst) ==
      Ok((Plain(VariableAssignNode(Current(lines, Cursor(c.li, c.ti + 1)).value, isConst,
                                   SimpleTypeNode(Current(lines, c).value), Plain(NoneNode))),
          Cursor(c.li, c.ti + 2)))
  {
  }

  /** `name ^= e` declares `name` with the type `auto` and the initializer `e`. */
  lemma DynamicDeclarationIsAuto(lines: Lines, c: Cursor, isConst: bool)
    requires Current(lines, c).kind == Identifier
    requires Peek(lines, c) == Token(Operator, "^=", Peek(lines, c).line, Peek(lines, c).column)
    ensures var r := Declaration(lines, c, isConst);
      var e := Expression(lines, Cursor(c.li, c.ti + 2));
      (r.Ok? <==> e.Ok?) &&
      (r.Ok? ==> r.value == (Plain(VariableAssignNode(Current(lines, c).value, isConst, SimpleTypeNode("auto"), e.value.0)), e.value.1))
  {
    var c1 := Advance(lines, c).1;
    assert c1 == Cursor(c.li, c.ti + 1) && Current(lines, c1) == Peek(lines, c);
    assert Advance(lines, c1).1 == Cursor(c.li, c.ti + 2);
    assert Declaration(lines, c, isConst) == Initializer(lines, c1, Current(lines, c).value, isConst, SimpleTypeNode("auto"));
  }

  /** `name = e` reassigns an existing variable. */
  lemma PlainAssignmentReassigns(lines: Lines, c: Cursor, isConst: bool)
    requires Current(lines, c).kind == Identifier
    requires Peek(lines, c) == Token(Operator, "=", Peek(lines, c).line, Peek(lines, c).column)
    ensures var r := Declaration(lines, c, isConst);
      var e := Expression(lines, Cursor(c.li, c.ti + 2));
      (r.Ok? <==> e.Ok?) &&
      (r.Ok? ==> r.value == (Plain(VariableReassignNode(Current(lines, c).value, e.value.0)), e.value.1))
  {
  }

  /**
   * `parseAssignment(true)` succeeds only after a `const` or `final` keyword, and both
   * give the same constant flag: `final` is not told apart.
   */
  lemma ConstAndFinalAreOneFlag(lines: Lines, c: Cursor)
    ensures Assignment(lines, c, true).Ok? ==>
      Current(lines, c).value == "const" || Current(lines, c).value == "final"
    ensures Assignment(lines, c, true).Ok? && Assignment(lines, c, true).value.0.kind.VariableAssignNode? ==>
      Assignment(lines, c, true).value.0.kind.isConst
  {
    var d := Declaration(lines, Advance(lines, c).1, true);
    if d.Ok? && d.value.0.kind.VariableAssignNode? {
      DeclarationKeepsFlag(lines, Advance(lines, c).1, true);
    }
  }

  /** Every variable the declaration forms create carries the flag they were given. */
  lemma DeclarationKeepsFlag(lines: Lines, c: Cursor, isConst: bool)
    ensures Declaration(lines, c, isConst).Ok? && Declaration(lines, c, isConst).value.0.kind.VariableAssignNode? ==>
      Declaration(lines, c, isConst).value.0.kind.isConst == isConst
  {
  }

  // ---------------------------------------------------------------------------------
  // Member expressions and calls
  // ---------------------------------------------------------------------------------

  /**
   * The `(` branch of the member loop always fails: it calls `parseCall` on the `(`
   * itself, which is not the Identifier a call starts with.
   */
  lemma MemberCallAlwaysFails(lines: Lines, c: Cursor, lastName: string, acc: seq<AccessLink>)
    requires Check(lines, c, LeftParen) && |lastName| > 0
    requires acc != [] ==> lastName == acc[|acc| - 1].name
    ensures AccessStep(lines, c, lastName) == Err("Expected function name")
    ensures AccessLinks(lines, c, lastName, acc) == Err("Expected function name")
  {
  }

  /** `f(a, b)`: the call's arguments are its identifiers in order. */
  lemma CallOfTwoNames(lines: Lines)
    requires |lines| == 1 && |lines[0]| == 6
    requires lines[0][0].kind == Identifier && lines[0][1].kind == LeftParen
    requires lines[0][2].kind == Identifier && lines[0][4].kind == Identifier
    requires lines[0][3].kind == Comma && lines[0][5].kind == RightParen
    ensures Call(lines, Cursor(0, 0)) ==
      Ok((Plain(CallNode(lines[0][0].value, [ParserRules.Name(lines[0][2]), ParserRules.Name(lines[0][4])])), Cursor(0, 6)))
  {
    TwoNameArguments(lines);
    assert CallArguments(lines, Cursor(0, 2)) ==
      Ok(([ParserRules.Name(lines[0][2]), ParserRules.Name(lines[0][4])], Cursor(0, 5)));
  }

  /** The argument list `a, b)` of a call line: two names, stopping before `)`. */
  lemma TwoNameArguments(lines: Lines)
    requires |lines| == 1 && |lines[0]| == 6
    requires lines[0][2].kind == Identifier && lines[0][4].kind == Identifier
    requires lines[0][3].kind == Comma && lines[0][5].kind == RightParen
    ensures ArgumentList(lines, Cursor(0, 2), []) ==
      Ok(([ParserRules.Name(lines[0][2]), ParserRules.Name(lines[0][4])], Cursor(0, 5)))
  {
    var a, b := ParserRules.Name(lines[0][2]), ParserRules.Name(lines[0][4]);
    ParserRules.NameExpression(lines, Cursor(0, 2));
    ParserRules.NameExpression(lines, Cursor(0, 4));
    assert ArgumentList(lines, Cursor(0, 4), [a]) == Ok(([a] + [b], Cursor(0, 5)));
    assert ArgumentList(lines, Cursor(0, 2), []) == ArgumentList(lines, Cursor(0, 4), [] + [a]);
    assert [] + [a] == [a];
    assert [a] + [b] == [a, b];
  }
}
