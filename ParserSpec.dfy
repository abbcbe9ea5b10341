/**
 * The parser's token cursor and its expression grammar, as functions of the token
 * lines and a cursor position. The `Parser` class runs the same steps by updating its
 * `lineIndex` and `tokenIndex` fields and is proved to agree with these functions.
 * A thrown `runtime_error` is an `Err` carrying the error text.
 */
module ParserSpec {
  import opened Wrappers
  import opened Tokens
  import opened Ast
  import Text
  import Lexer

  /** The parser's position: `lineIndex` and `tokenIndex`. */
  datatype Cursor = Cursor(li: int, ti: int)

  type Lines = seq<seq<Token>>

  /** `isEndOfFile`: the line index is past the last line (a negative index wraps past it too). */
  predicate IsEndOfFile(lines: Lines, c: Cursor)
  {
    !(0 <= c.li < |lines|)
  }

  /** The line under the cursor; reading past the last line is modelled as an empty line. */
  function LineAt(lines: Lines, li: int): seq<Token>
  {
    if 0 <= li < |lines| then lines[li] else []
  }

  /** `isEndOfLine`: the token index is past the line's last token (a negative index wraps past it too). */
  predicate IsEndOfLine(lines: Lines, c: Cursor)
  {
    !(0 <= c.ti < |LineAt(lines, c.li)|)
  }

  /** The cursor points at a token. */
  predicate AtToken(lines: Lines, c: Cursor)
  {
    !IsEndOfFile(lines, c) && !IsEndOfLine(lines, c)
  }

  /** How many tokens are left on the current line from the cursor on. */
  function Remaining(lines: Lines, c: Cursor): nat
  {
    if AtToken(lines, c) then |lines[c.li]| - c.ti else 0
  }

  /** Lines not yet finished, counting the current one. */
  function LinesLeft(lines: Lines, c: Cursor): nat
  {
    if 0 <= c.li < |lines| then |lines| - c.li else 0
  }

  /** `current`: the token under the cursor, or the None sentinel at the end of a line or of the file. */
  function Current(lines: Lines, c: Cursor): (t: Token)
    ensures !AtToken(lines, c) ==> t == NoToken
    ensures t.kind != TokenType.None ==> AtToken(lines, c)
  {
    if AtToken(lines, c) then lines[c.li][c.ti] else NoToken
  }

  /**
   * `advance`: returns the current token and moves one token right, but only while
   * the cursor is inside the line; at the end of a line or file nothing moves.
   */
  function Advance(lines: Lines, c: Cursor): (r: (Token, Cursor))
    ensures r.0 == Current(lines, c)
    ensures r.1.li == c.li
    ensures AtToken(lines, c) ==> r.1.ti == c.ti + 1 && Remaining(lines, r.1) == Remaining(lines, c) - 1
    ensures !AtToken(lines, c) ==> r.1 == c
  {
    (Current(lines, c), if AtToken(lines, c) then c.(ti := c.ti + 1) else c)
  }

  /** `check`: the current token has the given kind; false at the end of a line or file. */
  predicate Check(lines: Lines, c: Cursor, k: TokenType)
  {
    AtToken(lines, c) && lines[c.li][c.ti].kind == k
  }

  /** `match`: advances exactly when `check` holds, and reports whether it did. */
  function Match(lines: Lines, c: Cursor, k: TokenType): (r: (bool, Cursor))
    ensures r.0 == Check(lines, c, k)
    ensures r.1 == if r.0 then Advance(lines, c).1 else c
  {
    if Check(lines, c, k) then (true, Advance(lines, c).1) else (false, c)
  }

  /** `peek`: the token after the current one on the same line, or the sentinel; the cursor does not move. */
  function Peek(lines: Lines, c: Cursor): (t: Token)
    ensures t != NoToken ==> 0 <= c.li < |lines| && 0 <= c.ti + 1 < |lines[c.li]| && t == lines[c.li][c.ti + 1]
  {
    if !IsEndOfFile(lines, c) && 0 <= c.ti + 1 < |lines[c.li]| then lines[c.li][c.ti + 1] else NoToken
  }

  /** `nextLine`: moves to the start of the next line; false (and no move) at the end of the file. */
  function NextLine(lines: Lines, c: Cursor): (r: (bool, Cursor))
    ensures r.0 <==> !IsEndOfFile(lines, c)
    ensures r.0 ==> r.1 == Cursor(c.li + 1, 0)
    ensures !r.0 ==> r.1 == c
  {
    if IsEndOfFile(lines, c) then (false, c) else (true, Cursor(c.li + 1, 0))
  }

  /** `consume`: advances past a token of the given kind, or raises the given message. */
  function Consume(lines: Lines, c: Cursor, k: TokenType, msg: string): (r: Result<Cursor>)
    ensures r.Ok? <==> Check(lines, c, k)
    ensures r.Ok? ==> r.value.li == c.li && Remaining(lines, r.value) == Remaining(lines, c) - 1
    ensures r.Err? ==> r.msg == msg
  {
    if Check(lines, c, k) then Ok(Advance(lines, c).1) else Err(msg)
  }

  /** `getIndentLevel`: the number of Pipe tokens the line starts with. */
  function IndentLevel(line: seq<Token>): (n: nat)
    ensures n <= |line|
  {
    if line == [] || line[0].kind != Pipe then 0 else 1 + IndentLevel(line[1..])
  }

  /** `getIndentLevel` is `n` exactly when the first `n` tokens are Pipes and the next one, if any, is not. */
  lemma {:induction false} IndentLevelIsLeadingPipes(line: seq<Token>, n: nat)
    requires n <= |line|
    ensures IndentLevel(line) == n <==>
      (forall k :: 0 <= k < n ==> line[k].kind == Pipe) && (n < |line| ==> line[n].kind != Pipe)
  {
    if n > 0 && line[0].kind == Pipe {
      var tail := line[1..];
      IndentLevelIsLeadingPipes(tail, n - 1);
      assert forall k :: 1 <= k < n ==> line[k] == tail[k - 1];
      if n < |line| {
        assert line[n] == tail[n - 1];
      }
    }
  }

  /** `getLastTokenInCurrentLine`: the last token of the current line, or the sentinel. */
  function LastTokenInLine(lines: Lines, c: Cursor): (t: Token)
    ensures 0 <= c.li < |lines| && lines[c.li] != [] ==> t == lines[c.li][|lines[c.li]| - 1]
    ensures !(0 <= c.li < |lines|) || lines[c.li] == [] ==> t == NoToken
  {
    if 0 <= c.li < |lines| && lines[c.li] != [] then lines[c.li][|lines[c.li]| - 1] else NoToken
  }

  /**
   * `getPrecedence`: `or` 1, `and` 2, comparisons 3, `+ -` 4, `* / %` 5, and -1 for
   * anything else, including every token that is neither an Operator nor a Keyword.
   */
  function Precedence(t: Token): (p: int)
    ensures p == -1 || 1 <= p <= 5
    ensures p >= 1 ==> t.kind == Operator || t.kind == Keyword
    ensures p == 1 <==> (t.kind == Operator || t.kind == Keyword) && t.value == "or"
    ensures p == 2 <==> (t.kind == Operator || t.kind == Keyword) && t.value == "and"
    ensures p == 3 <==> (t.kind == Operator || t.kind == Keyword) && t.value in ComparisonOps
    ensures p == 4 <==> (t.kind == Operator || t.kind == Keyword) && t.value in AdditiveOps
    ensures p == 5 <==> (t.kind == Operator || t.kind == Keyword) && t.value in MultiplicativeOps
  {
    if t.kind != Operator && t.kind != Keyword then -1
    else if t.value == "or" then 1
    else if t.value == "and" then 2
    else if t.value == "==" || t.value == "<" || t.value == ">" || t.value == "!=" || t.value == "<=" || t.value == ">=" then 3
    else if t.value == "+" || t.value == "-" then 4
    else if t.value == "*" || t.value == "/" || t.value == "%" then 5
    else -1
  }

  const ComparisonOps: set<string> := {"==", "<", ">", "!=", "<=", ">="}
  const AdditiveOps: set<string> := {"+", "-"}
  const MultiplicativeOps: set<string> := {"*", "/", "%"}

  // ---------------------------------------------------------------------------------
  // Literals
  // ---------------------------------------------------------------------------------

  /** The end of the run of decimal digits starting at `i`. */
  function DigitRun(s: string, i: nat): (j: nat)
    requires i <= |s|
    ensures i <= j <= |s|
    ensures forall k :: i <= k < j ==> Lexer.IsDigit(s[k])
    ensures j < |s| ==> !Lexer.IsDigit(s[j])
    decreases |s| - i
  {
    if i < |s| && Lexer.IsDigit(s[i]) then DigitRun(s, i + 1) else i
  }

  /** The value of a string of decimal digits. */
  function DigitsValue(d: string): nat
  {
    if d == [] then 0 else DigitsValue(d[..|d| - 1]) * 10 + DigitValue(d[|d| - 1])
  }

  function DigitValue(ch: char): nat
  {
    if Lexer.IsDigit(ch) then (ch as int) - ('0' as int) else 0
  }

  /** Where the number proper starts: after leading whitespace and an optional sign. */
  function NumberStart(s: string): (j: nat)
    ensures j <= |s|
  {
    var i := Text.FirstNonWhitespace(s, 0);
    if i < |s| && (s[i] == '-' || s[i] == '+') then i + 1 else i
  }

  predicate NegativeSign(s: string)
  {
    var i := Text.FirstNonWhitespace(s, 0);
    i < |s| && s[i] == '-'
  }

  const InvalidArgument := "invalid_argument"

  /**
   * `std::stoi`: leading whitespace, an optional sign and at least one digit; the
   * value of the digit run, which must fit in a 32-bit `int`.
   */
  function Stoi(s: string): (r: Result<int>)
    ensures r.Ok? ==> -0x8000_0000 <= r.value <= 0x7FFF_FFFF
    ensures r == Err(InvalidArgument) <==> !(NumberStart(s) < |s| && Lexer.IsDigit(s[NumberStart(s)]))
  {
    var j := NumberStart(s);
    var k := DigitRun(s, j);
    if k == j then Err(InvalidArgument)
    else
      var v := if NegativeSign(s) then -(DigitsValue(s[j..k]) as int) else DigitsValue(s[j..k]);
      if v < -0x8000_0000 || v > 0x7FFF_FFFF then Err("stoi: out of range") else Ok(v)
  }

  /**
   * Whether `std::stof` accepts the text: after whitespace and a sign, a digit, or a
   * '.' followed by a digit.
   */
  predicate StofAccepts(s: string)
  {
    var j := NumberStart(s);
    j < |s| && (Lexer.IsDigit(s[j]) || (s[j] == '.' && j + 1 < |s| && Lexer.IsDigit(s[j + 1])))
  }

  /** `10^n`. */
  function Pow10(n: nat): (r: nat)
    ensures r >= 1
  {
    if n == 0 then 1 else 10 * Pow10(n - 1)
  }

  /**
   * The decimal number `stof` reads from the text: the digits before and after the
   * first '.' run together, and the count of those after it. Its value is the first
   * divided by ten to the second.
   */
  function DecimalPrefix(s: string): (r: (nat, nat))
  {
    var j := NumberStart(s);
    var k := DigitRun(s, j);
    if k < |s| && s[k] == '.' then
      var m := DigitRun(s, k + 1);
      (DigitsValue(s[j..k] + s[k + 1..m]), m - (k + 1))
    else (DigitsValue(s[j..k]), 0)
  }

  /** 2^128 - 2^103: halfway between the largest `float` and 2^128; from here on a decimal rounds to infinity. */
  const FloatOverflowBound: nat := 0x1_0000_0000_0000_0000_0000_0000_0000_0000 - 0x80_0000_0000_0000_0000_0000_0000

  /** 2^126, the inverse of the smallest normal `float`. */
  const FloatMinNormalInverse: nat := 0x4000_0000_0000_0000_0000_0000_0000_0000

  /**
   * Whether `std::stof` reports a range error (`errno == ERANGE`) for the number it
   * reads: its magnitude rounds beyond the largest `float`, or it is non-zero and
   * below the smallest normal `float`.
   */
  predicate StofOutOfRange(s: string)
  {
    var p := DecimalPrefix(s);
    OutOfFloatRange(p.0, p.1)
  }

  /** Whether n / 10^f rounds beyond the largest `float` or is non-zero and below the smallest normal one. */
  predicate OutOfFloatRange(n: nat, f: nat)
  {
    n >= FloatOverflowBound * Pow10(f) || (0 < n && n * FloatMinNormalInverse < Pow10(f))
  }

  /** What `std::stof` throws as `std::out_of_range`; the parser does not catch it. */
  const StofOutOfRangeError := "stof: out of range"

  /**
   * The type the parser gives an integer literal. As written, the i8 test
   * `v < 255 || v > -256` holds for every integer, so the i32 and i64 branches are dead.
   */
  function IntLiteralTypeName(v: int): (name: string)
    ensures name == "i1" <==> v == 0 || v == 1
    ensures name != "i1" ==> name == "i8"
  {
    if v == 0 || v == 1 then "i1"
    else if v < 255 || v > -256 then "i8"
    else if v > 65535 || v < -65536 then "i32"
    else "i64"
  }

  function InvalidNumberMessage(t: Token): string
  {
    "Parser Error: Invalid number format at line " + Text.IntToString(t.line) +
      ", column " + Text.IntToString(t.column) + ": " + t.value
  }

  function UnknownPrimaryMessage(t: Token): string
  {
    "Parser Error: Unknown primary expression at line " + Text.IntToString(t.line) +
      ", column " + Text.IntToString(t.column) + ": " + t.value
  }

  /**
   * A Number token as a node: text with a '.' is a float literal (its value is kept as
   * text), anything else goes through `stoi` and is typed by `IntLiteralTypeName`.
   * Only `invalid_argument` becomes the parser's "Invalid number format" error; a range
   * error of `stof` or `stoi` escapes as it is.
   */
  function NumberLiteral(t: Token): (r: Result<Node>)
    ensures r.Ok? && '.' in t.value ==> r.value == Plain(FloatNumberNode(t.value))
    ensures r.Ok? && '.' !in t.value ==> r.value.kind.NumberNode? && r.value.kind.numberType == SimpleTypeNode(IntLiteralTypeName(r.value.kind.value))
    ensures '.' in t.value ==> (r.Ok? <==> StofAccepts(t.value) && !StofOutOfRange(t.value))
    ensures '.' in t.value ==>
      && (r == Err(InvalidNumberMessage(t)) <==> !StofAccepts(t.value))
      && (StofAccepts(t.value) && StofOutOfRange(t.value) ==> r == Err(StofOutOfRangeError))
    ensures '.' !in t.value ==> (r.Ok? <==> Stoi(t.value).Ok?)
  {
    if '.' in t.value then
      if !StofAccepts(t.value) then Err(InvalidNumberMessage(t))
      else if StofOutOfRange(t.value) then Err(StofOutOfRangeError)
      else Ok(Plain(FloatNumberNode(t.value)))
    else
      match Stoi(t.value)
      case Ok(v) => Ok(Plain(NumberNode(v, SimpleTypeNode(IntLiteralTypeName(v)))))
      case Err(e) => if e == InvalidArgument then Err(InvalidNumberMessage(t)) else Err(e)
  }

  /** `substr(1, length - 2)`: a string literal without its quotes. */
  function StringLiteralText(v: string): (r: Result<string>)
    ensures |v| >= 2 ==> r == Ok(v[1..|v| - 1])
    ensures |v| == 1 ==> r == Ok("")
    ensures |v| == 0 ==> r.Err?
  {
    if |v| >= 2 then Ok(v[1..|v| - 1])
    else if |v| == 1 then Ok("")
    else Err("basic_string::substr: out of range")
  }

  // ---------------------------------------------------------------------------------
  // Types
  // ---------------------------------------------------------------------------------

  /** A successful parse stays on its line and never moves the cursor back. */
  predicate Stays<T>(lines: Lines, c: Cursor, r: Result<(T, Cursor)>)
  {
    r.Ok? ==> r.value.1.li == c.li && Remaining(lines, r.value.1) <= Remaining(lines, c)
  }

  /** A successful parse stays on its line and consumes at least one token. */
  predicate Consumes<T>(lines: Lines, c: Cursor, r: Result<(T, Cursor)>)
  {
    r.Ok? ==> r.value.1.li == c.li && Remaining(lines, r.value.1) < Remaining(lines, c)
  }

  /**
   * `getFullType`: a Type or Identifier token, optionally followed by `<`, comma-separated
   * type parameters and a closing token. As written the closing check accepts any
   * Operator token, not only `>`.
   */
  function FullType(lines: Lines, c: Cursor): (r: Result<(TypeNode, Cursor)>)
    ensures Consumes(lines, c, r)
    ensures r.Ok? ==> Current(lines, c).kind == Type || Current(lines, c).kind == Identifier
    decreases Remaining(lines, c), 0
  {
    var tok := Current(lines, c);
    if tok.kind != Type && tok.kind != Identifier then Err("Expected type identifier")
    else
      var c1 := Advance(lines, c).1;
      if Check(lines, c1, Operator) && Current(lines, c1).value == "<" then
        var ps :- TypeParameters(lines, Advance(lines, c1).1, []);
        if !Check(lines, ps.1, Operator) && Current(lines, ps.1).value != "<" then
          Err("Expected > to close generic type")
        else
          Ok((GenericTypeNode(tok.value, ps.0), Advance(lines, ps.1).1))
      else
        Ok((SimpleTypeNode(tok.value), c1))
  }

  /** The do-while of `getFullType` that reads type parameters separated by commas. */
  function TypeParameters(lines: Lines, c: Cursor, acc: seq<TypeNode>): (r: Result<(seq<TypeNode>, Cursor)>)
    ensures Consumes(lines, c, r)
    ensures r.Ok? ==> |r.value.0| > |acc|
    decreases Remaining(lines, c), 1
  {
    var t :- FullType(lines, c);
    if Check(lines, t.1, Comma) then TypeParameters(lines, Advance(lines, t.1).1, acc + [t.0])
    else Ok((acc + [t.0], t.1))
  }

  // ---------------------------------------------------------------------------------
  // Expressions
  // ---------------------------------------------------------------------------------

  /** `parseExpression`: `parseBinary(0)`. */
  function Expression(lines: Lines, c: Cursor): (r: Result<(Node, Cursor)>)
    ensures Stays(lines, c, r)
    decreases Remaining(lines, c), 9
  {
    Binary(lines, c, 0)
  }

  /** `parseBinary(p)`: a unary operand, then the operator loop at minimum precedence `p`. */
  function Binary(lines: Lines, c: Cursor, p: int): (r: Result<(Node, Cursor)>)
    requires p >= 0
    ensures Stays(lines, c, r)
    decreases Remaining(lines, c), 8
  {
    var left :- Unary(lines, c);
    BinaryLoop(lines, left.1, p, left.0)
  }

  /**
   * The while-loop of `parseBinary`: while the current token's precedence is at least
   * `p`, consume it and parse the right operand at that same precedence.
   */
  function BinaryLoop(lines: Lines, c: Cursor, p: int, left: Node): (r: Result<(Node, Cursor)>)
    requires p >= 0
    ensures Stays(lines, c, r)
    decreases Remaining(lines, c), 7
  {
    var tok := Current(lines, c);
    var cp := Precedence(tok);
    if cp < p then Ok((left, c))
    else
      var right :- Binary(lines, Advance(lines, c).1, cp);
      BinaryLoop(lines, right.1, p, Plain(BinaryOpNode(left, tok.value, right.0)))
  }

  predicate IsUnaryOperator(t: Token)
  {
    t.kind == Operator && (t.value == "!" || t.value == "-" || t.value == "?")
  }

  /** `parseUnary`: prefix `!`, `-` or `?` applied to a unary operand, else a primary expression. */
  function Unary(lines: Lines, c: Cursor): (r: Result<(Node, Cursor)>)
    ensures Stays(lines, c, r)
    decreases Remaining(lines, c), 6
  {
    var tok := Current(lines, c);
    if IsUnaryOperator(tok) then
      var operand :- Unary(lines, Advance(lines, c).1);
      Ok((Plain(UnaryOpNode(tok.value, operand.0)), operand.1))
    else
      Primary(lines, c)
  }

  /** `parsePrimary`: literals, calls, member expressions, collection literals, parentheses, keywords, identifiers. */
  function Primary(lines: Lines, c: Cursor): (r: Result<(Node, Cursor)>)
    ensures Stays(lines, c, r)
    decreases Remaining(lines, c), 5
  {
    var tok := Current(lines, c);
    var c1 := Advance(lines, c).1;
    if tok.kind == Number then
      var n :- NumberLiteral(tok);
      Ok((n, c1))
    else if tok.kind == String then
      var s :- StringLiteralText(tok.value);
      Ok((Plain(StringNode(s)), c1))
    else if tok.kind == Identifier && Peek(lines, c).kind == LeftParen then
      if Check(lines, c1, LeftParen) then
        var args :- CallArguments(lines, Advance(lines, c1).1);
        var c3 :- Consume(lines, args.1, RightParen, "Expected ')' after function arguments");
        Ok((Plain(CallNode(tok.value, args.0)), c3))
      else
        Ok((Plain(IdentifierNode(tok.value)), c1))
    else if tok.kind == Identifier && Peek(lines, c).kind == LeftBracket then
      MemberExpression(lines, c)
    else if tok.kind == Identifier && Peek(lines, c).kind == Dot then
      MemberExpression(lines, c)
    else if tok.kind == LeftBracket then
      ArrayLiteral(lines, c)
    else if tok.kind == LeftBrace then
      MapLiteral(lines, c)
    else if tok.kind == LeftParen then
      var e :- Expression(lines, c1);
      var c2 :- Consume(lines, e.1, RightParen, "Expected ')' after expression");
      Ok((e.0, c2))
    else if tok.kind == Keyword then
      if tok.value == "true" || tok.value == "false" then
        Ok((Plain(NumberNode(if tok.value == "true" then 1 else 0, SimpleTypeNode("i1"))), c1))
      else if tok.value == "null" then Ok((Plain(NullNode), c1))
      else if tok.value == "none" then Ok((Plain(NoneNode), c1))
      else if tok.value == "defiend" then
        var arg :- Expression(lines, c1);
        Ok((Plain(CallNode("defiend", [arg.0])), arg.1))
      else Err(UnknownPrimaryMessage(tok))
    else if tok.kind == Identifier && (Peek(lines, c).value != "." || Peek(lines, c).value != "[") then
      Ok((Plain(IdentifierNode(tok.value)), c1))
    else
      Err(UnknownPrimaryMessage(tok))
  }

  /**
   * An array literal at `[`: `[]` is a NoneNode and leaves the cursor on the `[`;
   * otherwise the items, then the closing `]`, as a BlockNode.
   */
  function ArrayLiteral(lines: Lines, c: Cursor): (r: Result<(Node, Cursor)>)
    requires Current(lines, c).kind == LeftBracket
    ensures Stays(lines, c, r)
    ensures r.Ok? ==> r.value.0.kind.NoneNode? || r.value.0.kind.BlockNode?
    decreases Remaining(lines, c), 4
  {
    if Peek(lines, c).kind == RightBracket then Ok((Plain(NoneNode), c))
    else
      var items :- ArrayItems(lines, c, []);
      var c2 :- Consume(lines, items.1, RightBracket, "Expected ']' after array arguments");
      Ok((Plain(BlockNode(items.0)), c2))
  }

  /** A map literal at `{`: `{}` is a NoneNode; otherwise the key-value entries, then `}`, as a BlockNode. */
  function MapLiteral(lines: Lines, c: Cursor): (r: Result<(Node, Cursor)>)
    requires Current(lines, c).kind == LeftBrace
    ensures Stays(lines, c, r)
    ensures r.Ok? ==> r.value.0.kind.NoneNode? || r.value.0.kind.BlockNode?
    decreases Remaining(lines, c), 4
  {
    if Peek(lines, c).kind == RightBrace then Ok((Plain(NoneNode), c))
    else
      var entries :- MapEntries(lines, c, []);
      var c2 :- Consume(lines, entries.1, RightBrace, "Expected '}' after map arguments");
      Ok((Plain(BlockNode(entries.0)), c2))
  }

  /** The argument list of a call: empty when `)` follows, else the comma-separated loop. */
  function CallArguments(lines: Lines, c: Cursor): (r: Result<(seq<Node>, Cursor)>)
    ensures Stays(lines, c, r)
    decreases Remaining(lines, c), 11
  {
    if Check(lines, c, RightParen) then Ok(([], c)) else ArgumentList(lines, c, [])
  }

  /** The do-while over arguments: an expression, then another while a comma is matched. */
  function ArgumentList(lines: Lines, c: Cursor, acc: seq<Node>): (r: Result<(seq<Node>, Cursor)>)
    ensures Stays(lines, c, r)
    ensures r.Ok? ==> |r.value.0| > |acc|
    decreases Remaining(lines, c), 10
  {
    var e :- Expression(lines, c);
    var m := Match(lines, e.1, Comma);
    if m.0 then ArgumentList(lines, m.1, acc + [e.0]) else Ok((acc + [e.0], e.1))
  }

  /** The do-while of an array literal: skip `[` or `,`, parse an element, repeat while a comma follows. */
  function ArrayItems(lines: Lines, c: Cursor, acc: seq<Node>): (r: Result<(seq<Node>, Cursor)>)
    requires AtToken(lines, c)
    ensures Consumes(lines, c, r)
    ensures r.Ok? ==> |r.value.0| > |acc|
    decreases Remaining(lines, c), 1
  {
    var e :- Expression(lines, Advance(lines, c).1);
    if Current(lines, e.1).kind == Comma then ArrayItems(lines, e.1, acc + [e.0]) else Ok((acc + [e.0], e.1))
  }

  /** One entry of a map literal after `{` or `,`: the key token's text, the key, `:`, the value. */
  function MapEntry(lines: Lines, c: Cursor): (r: Result<(Node, Cursor)>)
    requires AtToken(lines, c)
    ensures Consumes(lines, c, r)
    ensures r.Ok? ==> r.value.0.kind.KeyValueNode?
    decreases Remaining(lines, c), 0
  {
    var c1 := Advance(lines, c).1;
    var keyName := Current(lines, c1).value;
    var k :- Expression(lines, c1);
    var c2 :- Consume(lines, k.1, Colon, "Expected : after key");
    var v :- Expression(lines, c2);
    Ok((Plain(KeyValueNode(k.0, v.0, keyName)), v.1))
  }

  /** The do-while of a map literal: an entry, repeated while a comma follows. */
  function MapEntries(lines: Lines, c: Cursor, acc: seq<Node>): (r: Result<(seq<Node>, Cursor)>)
    requires AtToken(lines, c)
    ensures Consumes(lines, c, r)
    ensures r.Ok? ==> |r.value.0| > |acc|
    decreases Remaining(lines, c), 1
  {
    var e :- MapEntry(lines, c);
    if Current(lines, e.1).kind == Comma then MapEntries(lines, e.1, acc + [e.0]) else Ok((acc + [e.0], e.1))
  }

  /** One link of a member-access chain: its member name, its notation and its expression. */
  datatype AccessLink = AccessLink(name: string, notation: string, expression: Option<Node>)

  /** The chain of links as nested `AccessExpression` nodes, each holding the next in `nextAccess`. */
  function Chain(links: seq<AccessLink>): Option<Node>
  {
    if links == [] then Option.None
    else Some(Plain(AccessExpression(links[0].name, links[0].notation, links[0].expression, Chain(links[1..]))))
  }

  /**
   * `parseMemberExpression`: a root name, then links while `.`, `[` or (after a named
   * link) `(` follows; with no link at all the result is a plain identifier.
   */
  function MemberExpression(lines: Lines, c: Cursor): (r: Result<(Node, Cursor)>)
    ensures Consumes(lines, c, r)
    decreases Remaining(lines, c), 4
  {
    if !(Check(lines, c, Identifier) || Check(lines, c, Type)) then
      Err("Expected type or identifier in member expression")
    else
      var rootName := Current(lines, c).value;
      var links :- AccessLinks(lines, Advance(lines, c).1, rootName, []);
      if links.0 == [] then Ok((Plain(IdentifierNode(rootName)), links.1))
      else Ok((Plain(AccessExpression(rootName, "", Option.None, Chain(links.0))), links.1))
  }

  predicate ContinuesChain(lines: Lines, c: Cursor, lastName: string)
  {
    Check(lines, c, Dot) || Check(lines, c, LeftBracket) || (Check(lines, c, LeftParen) && |lastName| > 0)
  }

  /** The while-loop of `parseMemberExpression`; `lastName` is the member name of the newest link. */
  function AccessLinks(lines: Lines, c: Cursor, lastName: string, acc: seq<AccessLink>): (r: Result<(seq<AccessLink>, Cursor)>)
    requires acc != [] ==> lastName == acc[|acc| - 1].name
    ensures Stays(lines, c, r)
    ensures r.Ok? ==> |r.value.0| >= |acc|
    ensures r.Ok? ==> !ContinuesChain(lines, r.value.1, if r.value.0 == [] then lastName else r.value.0[|r.value.0| - 1].name)
    decreases Remaining(lines, c), 3
  {
    if !ContinuesChain(lines, c, lastName) then Ok((acc, c))
    else
      var link :- AccessStep(lines, c, lastName);
      AccessLinks(lines, link.1, link.0.name, acc + [link.0])
  }

  /** The body of the member loop: which notation the current token starts. */
  function AccessStep(lines: Lines, c: Cursor, lastName: string): (r: Result<(AccessLink, Cursor)>)
    requires ContinuesChain(lines, c, lastName)
    ensures Consumes(lines, c, r)
    decreases Remaining(lines, c), 2
  {
    if Check(lines, c, Dot) then DotNotation(lines, c, lastName)
    else if Check(lines, c, LeftBracket) then ArrayNotation(lines, c, lastName)
    else
      // the current token is `(`, so `parseCall` cannot find its callee name here
      match Call(lines, c)
      case Err(e) => Err(e)
      case Ok(call) => Ok((AccessLink(lastName, ".", Some(call.0)), call.1))
  }

  /** `parseDotNotation`: `.` then a member name, which is a call when `(` follows. */
  function DotNotation(lines: Lines, c: Cursor, lastName: string): (r: Result<(AccessLink, Cursor)>)
    requires Check(lines, c, Dot)
    ensures Consumes(lines, c, r)
    decreases Remaining(lines, c), 1
  {
    var c1 := Advance(lines, c).1;
    if !(Check(lines, c1, Identifier) || Check(lines, c1, Type)) then
      Err("Expected Identifier or Type after dot notation")
    else
      var name := Current(lines, c1).value;
      if Peek(lines, c1).kind == LeftParen then
        var call :- Call(lines, c1);
        Ok((AccessLink(name, ".", Some(call.0)), call.1))
      else
        Ok((AccessLink(name, ".", Option.None), Advance(lines, c1).1))
  }

  /** `parseArrayNotation`: `[`, an index expression that may not be empty, `]`. */
  function ArrayNotation(lines: Lines, c: Cursor, lastName: string): (r: Result<(AccessLink, Cursor)>)
    requires Check(lines, c, LeftBracket)
    ensures Consumes(lines, c, r)
    decreases Remaining(lines, c), 1
  {
    var c1 := Advance(lines, c).1;
    if Check(lines, c1, RightBracket) then Err("Expected primary-expression before ']'")
    else
      var e :- Expression(lines, c1);
      var c2 :- Consume(lines, e.1, RightBracket, "Expected ']' after array notation");
      Ok((AccessLink(lastName, "[]", Some(e.0)), c2))
  }

  /** `parseCall`: a callee identifier, `(`, the arguments and `)`. */
  function Call(lines: Lines, c: Cursor): (r: Result<(Node, Cursor)>)
    ensures Consumes(lines, c, r)
    ensures r.Ok? ==> Check(lines, c, Identifier) && r.value.0.kind.CallNode? && r.value.0.kind.callee == Current(lines, c).value
    decreases Remaining(lines, c), 1
  {
    var callee := Current(lines, c).value;
    var c1 :- Consume(lines, c, Identifier, "Expected function name");
    var c2 :- Consume(lines, c1, LeftParen, "Expected '(' after function name");
    var args :- CallArguments(lines, c2);
    var c3 :- Consume(lines, args.1, RightParen, "Expected ')' after function arguments");
    Ok((Plain(CallNode(callee, args.0)), c3))
  }
}
