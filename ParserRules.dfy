/**
 * Properties of the parser's grammar functions: how operators group, the order in
 * which list-building loops keep their items, and the shapes the statement parsers
 * produce, including the places where the parser behaves differently from what its
 * comments describe.
 */
module ParserRules {
  import opened Wrappers
  import opened Tokens
  import opened Ast
  import opened ParserSpec
  import opened StatementSpec

  function Name(t: Token): Node
  {
    Plain(IdentifierNode(t.value))
  }

  function BinOp(left: Node, op: Token, right: Node): Node
  {
    Plain(BinaryOpNode(left, op.value, right))
  }

  // ---------------------------------------------------------------------------------
  // Operators
  // ---------------------------------------------------------------------------------

  /** An identifier that is not followed by `(`, `[` or `.` is a plain identifier operand. */
  lemma IdentifierOperand(lines: Lines, c: Cursor)
    requires Current(lines, c).kind == Identifier
    requires Peek(lines, c).kind != LeftParen && Peek(lines, c).kind != LeftBracket && Peek(lines, c).kind != Dot
    ensures Unary(lines, c) == Ok((Name(Current(lines, c)), Advance(lines, c).1))
  {
  }

  /**
   * An identifier followed by a token that is neither an operator, a keyword, `(`, `[`
   * nor `.` is a whole expression on its own.
   */
  lemma NameExpression(lines: Lines, c: Cursor)
    requires Current(lines, c).kind == Identifier
    requires Peek(lines, c).kind !in {Operator, Keyword, LeftParen, LeftBracket, Dot}
    ensures Expression(lines, c) == Ok((Name(Current(lines, c)), Advance(lines, c).1))
  {
    IdentifierOperand(lines, c);
    var next := Advance(lines, c).1;
    assert Current(lines, next) == Peek(lines, c);
    assert Precedence(Current(lines, next)) == -1;
    assert BinaryLoop(lines, next, 0, Name(Current(lines, c))) == Ok((Name(Current(lines, c)), next));
    assert Binary(lines, c, 0) == BinaryLoop(lines, next, 0, Name(Current(lines, c)));
  }

  /** At the end of a line no operator follows, so the operator loop returns its left operand. */
  lemma LoopStopsAtEndOfLine(lines: Lines, c: Cursor, p: int, left: Node)
    requires p >= 0 && !AtToken(lines, c)
    ensures BinaryLoop(lines, c, p, left) == Ok((left, c))
  {
  }

  /**
   * Three identifiers joined by two binary operators: when the first operator's
   * precedence is lower than or EQUAL to the second's, the second pair is grouped
   * first (`a - b - c` is `a - (b - c)`, because the right operand is parsed at the
   * operator's own precedence); when it is higher, the first pair is.
   */
  lemma ThreeOperands(a: Token, o1: Token, b: Token, o2: Token, d: Token)
    requires a.kind == Identifier && b.kind == Identifier && d.kind == Identifier
    requires Precedence(o1) >= 1 && Precedence(o2) >= 1
    ensures Expression([[a, o1, b, o2, d]], Cursor(0, 0)) ==
      if Precedence(o1) <= Precedence(o2) then Ok((BinOp(Name(a), o1, BinOp(Name(b), o2, Name(d))), Cursor(0, 5)))
      else Ok((BinOp(BinOp(Name(a), o1, Name(b)), o2, Name(d)), Cursor(0, 5)))
  {
    if Precedence(o1) <= Precedence(o2) {
      GroupsRight(a, o1, b, o2, d);
    } else {
      GroupsLeft(a, o1, b, o2, d);
    }
  }

  /** The operands the three-operand lemmas share: each identifier parses to itself. */
  lemma Operands(ln: seq<Token>)
    requires |ln| == 5 && ln[0].kind == Identifier && ln[2].kind == Identifier && ln[4].kind == Identifier
    requires Precedence(ln[1]) >= 1 && Precedence(ln[3]) >= 1
    ensures Unary([ln], Cursor(0, 0)) == Ok((Name(ln[0]), Cursor(0, 1)))
    ensures Unary([ln], Cursor(0, 2)) == Ok((Name(ln[2]), Cursor(0, 3)))
    ensures Binary([ln], Cursor(0, 4), Precedence(ln[3])) == Ok((Name(ln[4]), Cursor(0, 5)))
    ensures Current([ln], Cursor(0, 1)) == ln[1] && Current([ln], Cursor(0, 3)) == ln[3]
  {
    OperandAt(ln, 0);
    OperandAt(ln, 2);
    LastOperand(ln, Precedence(ln[3]));
    CurrentAt(ln, 1);
    CurrentAt(ln, 3);
  }

  /** On a one-line input, the token under the cursor is the token at its index. */
  lemma CurrentAt(ln: seq<Token>, k: nat)
    requires k < |ln|
    ensures Current([ln], Cursor(0, k)) == ln[k]
  {
  }

  /** The identifier that ends a line is the whole right operand, at any precedence. */
  lemma LastOperand(ln: seq<Token>, p: int)
    requires |ln| > 0 && ln[|ln| - 1].kind == Identifier && p >= 0
    ensures Binary([ln], Cursor(0, |ln| - 1), p) == Ok((Name(ln[|ln| - 1]), Cursor(0, |ln|)))
  {
    OperandAt(ln, |ln| - 1);
    LoopStopsAtEndOfLine([ln], Cursor(0, |ln|), p, Name(ln[|ln| - 1]));
  }

  /** An identifier followed by an operator, or ending the line, parses to itself. */
  lemma OperandAt(ln: seq<Token>, k: nat)
    requires k < |ln| && ln[k].kind == Identifier
    requires k + 1 < |ln| ==> ln[k + 1].kind == Operator || ln[k + 1].kind == Keyword
    ensures Unary([ln], Cursor(0, k)) == Ok((Name(ln[k]), Cursor(0, k + 1)))
  {
    IdentifierOperand([ln], Cursor(0, k));
  }

  lemma GroupsRight(a: Token, o1: Token, b: Token, o2: Token, d: Token)
    requires a.kind == Identifier && b.kind == Identifier && d.kind == Identifier
    requires 1 <= Precedence(o1) <= Precedence(o2)
    ensures Expression([[a, o1, b, o2, d]], Cursor(0, 0)) ==
      Ok((BinOp(Name(a), o1, BinOp(Name(b), o2, Name(d))), Cursor(0, 5)))
  {
    var ln := [a, o1, b, o2, d];
    var lines: Lines := [ln];
    var p1 := Precedence(o1);
    Operands(ln);
    AdvanceAt(ln, 1);
    AdvanceAt(ln, 3);
    var bd := BinOp(Name(b), o2, Name(d));
    LoopStep(lines, Cursor(0, 3), p1, Name(b), Name(d), Cursor(0, 5));
    LoopStopsAtEndOfLine(lines, Cursor(0, 5), p1, bd);
    assert Binary(lines, Cursor(0, 2), p1) == Ok((bd, Cursor(0, 5)));
    LoopStep(lines, Cursor(0, 1), 0, Name(a), bd, Cursor(0, 5));
    LoopStopsAtEndOfLine(lines, Cursor(0, 5), 0, BinOp(Name(a), o1, bd));
  }

  lemma GroupsLeft(a: Token, o1: Token, b: Token, o2: Token, d: Token)
    requires a.kind == Identifier && b.kind == Identifier && d.kind == Identifier
    requires Precedence(o1) > Precedence(o2) >= 1
    ensures Expression([[a, o1, b, o2, d]], Cursor(0, 0)) ==
      Ok((BinOp(BinOp(Name(a), o1, Name(b)), o2, Name(d)), Cursor(0, 5)))
  {
    var ln := [a, o1, b, o2, d];
    var lines: Lines := [ln];
    var p1 := Precedence(o1);
    Operands(ln);
    AdvanceAt(ln, 1);
    AdvanceAt(ln, 3);
    var ab := BinOp(Name(a), o1, Name(b));
    LoopStopsBelow(lines, Cursor(0, 3), p1, Name(b));
    assert Binary(lines, Cursor(0, 2), p1) == Ok((Name(b), Cursor(0, 3)));
    LoopStep(lines, Cursor(0, 1), 0, Name(a), Name(b), Cursor(0, 3));
    LoopStep(lines, Cursor(0, 3), 0, ab, Name(d), Cursor(0, 5));
    LoopStopsAtEndOfLine(lines, Cursor(0, 5), 0, BinOp(ab, o2, Name(d)));
  }

  /** One round of the operator loop: the operator is taken and its right operand parsed at its own precedence. */
  lemma LoopStep(lines: Lines, c: Cursor, p: int, left: Node, right: Node, c2: Cursor)
    requires p >= 0 && Precedence(Current(lines, c)) >= p
    requires Binary(lines, Advance(lines, c).1, Precedence(Current(lines, c))) == Ok((right, c2))
    ensures BinaryLoop(lines, c, p, left) ==
      BinaryLoop(lines, c2, p, Plain(BinaryOpNode(left, Current(lines, c).value, right)))
  {
  }

  /** The operator loop stops at a token whose precedence is below its minimum. */
  lemma LoopStopsBelow(lines: Lines, c: Cursor, p: int, left: Node)
    requires p >= 0 && Precedence(Current(lines, c)) < p
    ensures BinaryLoop(lines, c, p, left) == Ok((left, c))
  {
  }

  /** On a one-line input, advancing moves the cursor to the next index of the line. */
  lemma AdvanceAt(ln: seq<Token>, k: nat)
    requires k < |ln|
    ensures Advance([ln], Cursor(0, k)).1 == Cursor(0, k + 1)
  {
  }

  /** Subtraction groups to the right: `a - b - c` parses as `a - (b - c)`. */
  lemma SubtractionGroupsRight(a: Token, minus: Token, b: Token, d: Token)
    requires a.kind == Identifier && b.kind == Identifier && d.kind == Identifier
    requires minus == Token(Operator, "-", minus.line, minus.column)
    ensures Expression([[a, minus, b, minus, d]], Cursor(0, 0)) ==
      Ok((BinOp(Name(a), minus, BinOp(Name(b), minus, Name(d))), Cursor(0, 5)))
  {
    ThreeOperands(a, minus, b, minus, d);
  }

  /** Multiplication binds tighter than addition on either side. */
  lemma ProductBindsTighter(a: Token, plus: Token, b: Token, times: Token, d: Token)
    requires a.kind == Identifier && b.kind == Identifier && d.kind == Identifier
    requires plus == Token(Operator, "+", plus.line, plus.column)
    requires times == Token(Operator, "*", times.line, times.column)
    ensures Expression([[a, plus, b, times, d]], Cursor(0, 0)) ==
      Ok((BinOp(Name(a), plus, BinOp(Name(b), times, Name(d))), Cursor(0, 5)))
    ensures Expression([[a, times, b, plus, d]], Cursor(0, 0)) ==
      Ok((BinOp(BinOp(Name(a), times, Name(b)), plus, Name(d)), Cursor(0, 5)))
  {
    ThreeOperands(a, plus, b, times, d);
    ThreeOperands(a, times, b, plus, d);
  }

  /** Above the highest precedence level (5) no binary operator is taken: the operand is a unary expression. */
  lemma AboveTopPrecedenceIsUnary(lines: Lines, c: Cursor, p: int)
    requires p > 5
    ensures Binary(lines, c, p) == Unary(lines, c)
  {
  }

  // ---------------------------------------------------------------------------------
  // Literals
  // ---------------------------------------------------------------------------------

  /** `true` and `false` are the one-bit integers 1 and 0. */
  lemma BooleanLiterals(lines: Lines, c: Cursor)
    requires Current(lines, c).kind == Keyword
    requires Current(lines, c).value == "true" || Current(lines, c).value == "false"
    ensures Primary(lines, c) ==
      Ok((Plain(NumberNode(if Current(lines, c).value == "true" then 1 else 0, SimpleTypeNode("i1"))), Advance(lines, c).1))
  {
  }

  /** `[]` and `{}` are a NoneNode, and the cursor stays on the opening bracket. */
  lemma EmptyCollectionIsNone(lines: Lines, c: Cursor)
    requires (Current(lines, c).kind == LeftBracket && Peek(lines, c).kind == RightBracket) ||
             (Current(lines, c).kind == LeftBrace && Peek(lines, c).kind == RightBrace)
    ensures Primary(lines, c) == Ok((Plain(NoneNode), c))
  {
  }

  /**
   * An integer literal other than 0 and 1 is typed `i8` whatever its size: the first
   * width test of the chain holds for every integer.
   */
  lemma IntegerLiteralWidth(t: Token, v: int)
    requires t.kind == Number && '.' !in t.value && Stoi(t.value) == Ok(v)
    ensures NumberLiteral(t) == Ok(Plain(NumberNode(v, SimpleTypeNode(if v == 0 || v == 1 then "i1" else "i8"))))
  {
  }

  predicate AllDigits(d: string)
  {
    forall i :: 0 <= i < |d| ==> Lexer.IsDigit(d[i])
  }

  predicate AllZeros(d: string)
  {
    forall i :: 0 <= i < |d| ==> d[i] == '0'
  }

  lemma {:induction false} Pow10Add(a: nat, b: nat)
    ensures Pow10(a + b) == Pow10(a) * Pow10(b)
    decreases b
  {
    if b > 0 {
      Pow10Add(a, b - 1);
      assert Pow10(a + b) == 10 * Pow10(a + b - 1);
    }
  }

  /** Digits written after others scale those by a power of ten. */
  lemma {:induction false} DigitsValueAppend(a: string, b: string)
    ensures DigitsValue(a + b) == DigitsValue(a) * Pow10(|b|) + DigitsValue(b)
    decreases |b|
  {
    if b != [] {
      var b' := b[..|b| - 1];
      assert (a + b)[..|a + b| - 1] == a + b';
      assert (a + b)[|a + b| - 1] == b[|b| - 1];
      DigitsValueAppend(a, b');
      var x := DigitValue(b[|b| - 1]);
      calc {
        DigitsValue(a + b);
        (DigitsValue(a) * Pow10(|b'|) + DigitsValue(b')) * 10 + x;
        { ShiftDigit(DigitsValue(a), Pow10(|b'|), DigitsValue(b'), x); }
        DigitsValue(a) * (Pow10(|b'|) * 10) + (DigitsValue(b') * 10 + x);
        DigitsValue(a) * Pow10(|b|) + DigitsValue(b);
      }
    } else {
      assert a + b == a;
    }
  }

  lemma ShiftDigit(a: int, p: int, b: int, x: int)
    ensures (a * p + b) * 10 + x == a * (p * 10) + (b * 10 + x)
  {
  }

  /** A digit string of length n is below 10^n, and at least 10^(n-1) when it does not start with 0. */
  lemma {:induction false} DigitsValueBounds(d: string)
    requires AllDigits(d)
    ensures DigitsValue(d) < Pow10(|d|)
    ensures |d| > 0 && d[0] != '0' ==> DigitsValue(d) >= Pow10(|d| - 1)
    decreases |d|
  {
    if d != [] {
      var d' := d[..|d| - 1];
      DigitsValueBounds(d');
      if |d| > 1 {
        assert d'[0] == d[0];
      }
    }
  }

  lemma {:induction false} DigitsValueZeros(z: string)
    requires AllZeros(z)
    ensures DigitsValue(z) == 0
    decreases |z|
  {
    if z != [] {
      DigitsValueZeros(z[..|z| - 1]);
    }
  }

  /**
   * A literal `d.e` of digit strings, `d` non-empty: `stof` accepts it and reads the
   * digits of both parts, |e| of them after the point.
   */
  lemma DecimalPrefixOfLiteral(d: string, e: string)
    requires |d| > 0 && AllDigits(d) && AllDigits(e)
    ensures StofAccepts(d + "." + e) && '.' in d + "." + e
    ensures DecimalPrefix(d + "." + e) == (DigitsValue(d + e), |e|)
  {
    var s := d + "." + e;
    forall x | 0 <= x < |d|
      ensures Lexer.IsDigit(s[x])
    {
      assert s[x] == d[x];
    }
    forall x | |d| + 1 <= x < |s|
      ensures Lexer.IsDigit(s[x])
    {
      assert s[x] == e[x - |d| - 1];
    }
    assert s[|d|] == '.';
    assert s[..|d|] + s[|d| + 1..] == d + e by {
      assert s[..|d|] == d && s[|d| + 1..] == e;
    }
    DecimalPrefixAt(s, |d|);
  }

  /** The same, stated on the positions of one text: digits, a point at k, digits. */
  lemma DecimalPrefixAt(s: string, k: nat)
    requires 0 < k < |s| && s[k] == '.'
    requires forall x :: 0 <= x < k ==> Lexer.IsDigit(s[x])
    requires forall x :: k < x < |s| ==> Lexer.IsDigit(s[x])
    ensures StofAccepts(s) && '.' in s
    ensures DecimalPrefix(s) == (DigitsValue(s[..k] + s[k + 1..]), |s| - k - 1)
  {
    assert Text.FirstNonWhitespace(s, 0) == 0 by {
      assert Lexer.IsDigit(s[0]);
    }
    assert NumberStart(s) == 0;
    DigitRunTo(s, 0, k);
    DigitRunTo(s, k + 1, |s|);
    assert s[0..k] == s[..k] && s[k + 1..|s|] == s[k + 1..];
    assert DecimalPrefix(s) == (DigitsValue(s[0..k] + s[k + 1..|s|]), |s| - (k + 1));
  }

  /** The digit run from i ends at k when s[i..k] are digits and s[k] is not. */
  lemma {:induction false} DigitRunTo(s: string, i: nat, k: nat)
    requires i <= k <= |s|
    requires forall x :: i <= x < k ==> Lexer.IsDigit(s[x])
    requires k < |s| ==> !Lexer.IsDigit(s[k])
    ensures DigitRun(s, i) == k
    decreases k - i
  {
    if i < k {
      DigitRunTo(s, i + 1, k);
    }
  }

  /**
   * A float literal with 40 or more digits before the point, the first not 0, is at
   * least 10^39, beyond the largest `float`: `stof` throws `out_of_range`, which the
   * parser does not catch.
   */
  lemma LargeFloatEscapes(t: Token, d: string, e: string)
    requires t.value == d + "." + e && AllDigits(d) && AllDigits(e)
    requires |d| >= 40 && d[0] != '0'
    ensures NumberLiteral(t) == Err(StofOutOfRangeError)
  {
    DecimalPrefixOfLiteral(d, e);
    DigitsValueAppend(d, e);
    DigitsValueBounds(d);
    Pow10Bounds();
    Pow10Mono(39, |d| - 1);
    var v, f := DigitsValue(d), Pow10(|e|);
    assert FloatOverflowBound <= v;
    MulMono(FloatOverflowBound, v, f);
    assert DigitsValue(d + e) >= FloatOverflowBound * f;
    assert StofOutOfRange(t.value);
  }

  /**
   * A non-zero float literal whose integer digits are all 0 and whose first 38 digits
   * after the point are 0 is below 10^-38, under the smallest normal `float`: the same
   * uncaught range error.
   */
  lemma TinyFloatEscapes(t: Token, d: string, z: string, e: string)
    requires t.value == d + "." + (z + e) && |d| > 0 && AllZeros(d) && AllZeros(z) && AllDigits(e)
    requires |z| >= 38 && DigitsValue(e) > 0
    ensures NumberLiteral(t) == Err(StofOutOfRangeError)
  {
    TinyFractionOutOfRange(d, z, e);
    RangeErrorEscapes(t);
  }

  lemma TinyFractionOutOfRange(d: string, z: string, e: string)
    requires |d| > 0 && AllZeros(d) && AllZeros(z) && AllDigits(e)
    requires |z| >= 38 && DigitsValue(e) > 0
    ensures '.' in d + "." + (z + e) && StofAccepts(d + "." + (z + e))
    ensures StofOutOfRange(d + "." + (z + e))
  {
    var n := TinyFractionValue(d, z, e);
    DecimalPrefixOfLiteral(d, z + e);
    DigitsValueBounds(e);
    BelowMinNormal(n, |e|, |z|, |z + e|);
    OutOfRangeOf(d + "." + (z + e), n, |z + e|);
  }

  lemma OutOfRangeOf(s: string, n: nat, f: nat)
    requires DecimalPrefix(s) == (n, f) && OutOfFloatRange(n, f)
    ensures StofOutOfRange(s)
  {
  }

  /** Text `stof` accepts but whose value is out of the `float` range gives the uncaught range error. */
  lemma RangeErrorEscapes(t: Token)
    requires '.' in t.value && StofAccepts(t.value) && StofOutOfRange(t.value)
    ensures NumberLiteral(t) == Err(StofOutOfRangeError)
  {
  }

  /** The digits of `d.ze`, `d` and `z` all zeros, are worth those of `e`. */
  lemma TinyFractionValue(d: string, z: string, e: string) returns (n: nat)
    requires |d| > 0 && AllZeros(d) && AllZeros(z) && AllDigits(e)
    ensures AllDigits(d) && AllDigits(z + e)
    ensures n == DigitsValue(d + (z + e)) == DigitsValue(e)
  {
    forall i | 0 <= i < |z + e|
      ensures Lexer.IsDigit((z + e)[i])
    {
      if i >= |z| {
        assert (z + e)[i] == e[i - |z|];
      }
    }
    DigitsValueZeros(d);
    DigitsValueZeros(z);
    assert d + (z + e) == (d + z) + e;
    DigitsValueAppend(d + z, e);
    DigitsValueAppend(d, z);
    n := DigitsValue(e);
  }

  /** 10^a <= 10^b when a <= b. */
  lemma Pow10Mono(a: nat, b: nat)
    requires a <= b
    ensures Pow10(a) <= Pow10(b)
  {
    Pow10Add(a, b - a);
    MulMono(1, Pow10(b - a), Pow10(a));
  }

  /** The powers of ten that bound the `float` range. */
  lemma Pow10Bounds()
    ensures Pow10(38) == 100_000_000_000_000_000_000_000_000_000_000_000_000
    ensures Pow10(39) == 10 * Pow10(38)
    ensures FloatMinNormalInverse < Pow10(38) < FloatOverflowBound <= Pow10(39)
  {
    assert Pow10(2) == 100;
    Pow10Add(2, 2);
    assert Pow10(4) == 10_000;
    Pow10Add(4, 4);
    assert Pow10(8) == 100_000_000;
    Pow10Add(8, 8);
    assert Pow10(16) == 10_000_000_000_000_000;
    Pow10Add(16, 16);
    assert Pow10(32) == 100_000_000_000_000_000_000_000_000_000_000;
    Pow10Add(32, 4);
    assert Pow10(36) == 1_000_000_000_000_000_000_000_000_000_000_000_000;
    Pow10Add(36, 2);
    assert Pow10(39) == 10 * Pow10(38);
  }

  lemma MulMono(a: nat, b: nat, c: nat)
    requires a <= b
    ensures a * c <= b * c
  {
  }

  lemma MulStrict(a: nat, b: nat, c: nat)
    requires a < b && c > 0
    ensures a * c < c * b
  {
    MulMono(a + 1, b, c);
  }

  /** A number below 10^a, shifted 38 or more places right, is below 2^-126. */
  lemma BelowMinNormal(n: nat, a: nat, b: nat, f: nat)
    requires 0 < n < Pow10(a) && b >= 38 && f == a + b
    ensures OutOfFloatRange(n, f)
  {
    Pow10Bounds();
    Pow10Mono(38, b);
    Pow10Add(a, b);
    var p, q := Pow10(a), Pow10(b);
    MulStrict(n, p, FloatMinNormalInverse);
    MulMono(FloatMinNormalInverse, q, p);
    MulComm(q, p);
    assert Pow10(f) == p * q;
  }

  lemma MulComm(a: nat, b: nat)
    ensures a * b == b * a
  {
  }

  /**
   * v * f + x, with v an integer part of 1 to 38 digits not starting with 0 and x < f,
   * lies between f and 10^38 * f: the value (v * f + x) / f is a normal `float`.
   */
  lemma WithinFloatRange(v: nat, k: nat, x: nat, f: nat)
    requires 1 <= k <= 38 && Pow10(k - 1) <= v < Pow10(k) && x < f
    ensures v * f + x < FloatOverflowBound * f
    ensures (v * f + x) * FloatMinNormalInverse >= f
  {
    Pow10Bounds();
    Pow10Mono(k, 38);
    LeadingDigitsBound(v, f, x);
    MulMono(v + 1, FloatOverflowBound, f);
    MulMono(1, v, f);
    MulMono(1, FloatMinNormalInverse, v * f + x);
  }

  lemma LeadingDigitsBound(v: nat, f: nat, x: nat)
    requires x < f
    ensures v * f + x < (v + 1) * f
  {
  }

  /**
   * A float literal with 1 to 38 digits before the point, the first not 0, lies between
   * 1 and 10^38, within the `float` range: it is kept as text.
   */
  lemma ModerateFloatAccepted(t: Token, d: string, e: string)
    requires t.value == d + "." + e && AllDigits(d) && AllDigits(e)
    requires 1 <= |d| <= 38 && d[0] != '0'
    ensures NumberLiteral(t) == Ok(Plain(FloatNumberNode(t.value)))
  {
    DecimalPrefixOfLiteral(d, e);
    DigitsValueAppend(d, e);
    DigitsValueBounds(d);
    DigitsValueBounds(e);
    WithinFloatRange(DigitsValue(d), |d|, DigitsValue(e), Pow10(|e|));
    assert !StofOutOfRange(t.value);
  }

  /** 1e40 is beyond the largest `float`: `stof` raises its range error, which the parser does not catch. */
  lemma FloatOverflowEscapes(t: Token)
    requires t.kind == Number && t.value == "10000000000000000000000000000000000000000.0"
    ensures NumberLiteral(t) == Err(StofOutOfRangeError)
  {
    var d := "10000000000000000000000000000000000000000";
    assert t.value == d + "." + "0";
    LargeFloatEscapes(t, d, "0");
  }

  /** 1e-51, written `0.` then fifty zeros then `1`, is below the smallest `float`: the same uncaught range error. */
  lemma FloatUnderflowEscapes(t: Token)
    requires t.kind == Number && t.value == "0." + seq(50, _ => '0') + "1"
    ensures NumberLiteral(t) == Err(StofOutOfRangeError)
  {
    var z := seq(50, _ => '0');
    assert "0." == "0" + ".";
    assert t.value == "0" + "." + (z + "1");
    assert DigitsValue("1") == 1 by {
      assert "1"[..0] == "";
    }
    TinyFloatEscapes(t, "0", z, "1");
  }

  /** An ordinary float literal is kept as text. */
  lemma FloatInRange(t: Token)
    requires t.kind == Number && t.value == "3.14"
    ensures NumberLiteral(t) == Ok(Plain(FloatNumberNode("3.14")))
  {
    assert t.value == "3" + "." + "14";
    ModerateFloatAccepted(t, "3", "14");
  }

  // ---------------------------------------------------------------------------------
  // Lists built by do-while loops
  // ---------------------------------------------------------------------------------

  /** A list result with `acc` put in front of its items. */
  function Prepend<T>(acc: seq<T>, r: Result<(seq<T>, Cursor)>): Result<(seq<T>, Cursor)>
  {
    match r
    case Ok((items, c)) => Ok((acc + items, c))
    case Err(e) => Err(e)
  }

  /** Putting `acc` then `[x]` in front is putting `acc + [x]` in front. */
  lemma PrependTwice<T>(acc: seq<T>, x: T, r: Result<(seq<T>, Cursor)>)
    ensures Prepend(acc, Prepend([x], r)) == Prepend(acc + [x], r)
  {
    if r.Ok? {
      assert acc + ([x] + r.value.0) == acc + [x] + r.value.0;
    }
  }

  /** Call arguments are kept in source order: the loop's result is what it had, then what it read. */
  lemma {:induction false} ArgumentListInOrder(lines: Lines, c: Cursor, acc: seq<Node>)
    ensures ArgumentList(lines, c, acc) == Prepend(acc, ArgumentList(lines, c, []))
    decreases Remaining(lines, c)
  {
    var e := Expression(lines, c);
    if e.Ok? {
      var x := e.value.0;
      var m := Match(lines, e.value.1, Comma);
      if m.0 {
        assert ArgumentList(lines, c, acc) == ArgumentList(lines, m.1, acc + [x]);
        assert ArgumentList(lines, c, []) == ArgumentList(lines, m.1, [] + [x]);
        assert [] + [x] == [x];
        ArgumentListInOrder(lines, m.1, acc + [x]);
        ArgumentListInOrder(lines, m.1, [x]);
        PrependTwice(acc, x, ArgumentList(lines, m.1, []));
      } else {
        assert ArgumentList(lines, c, []) == Ok(([] + [x], e.value.1));
        assert [] + [x] == [x];
      }
    }
  }

  /** Function parameters are kept in source order. */
  lemma {:induction false} ParameterListInOrder(lines: Lines, c: Cursor, acc: seq<Param>)
    ensures ParameterList(lines, c, acc) == Prepend(acc, ParameterList(lines, c, []))
    decreases Remaining(lines, c)
  {
    var p := Parameter(lines, c);
    if p.Ok? {
      var x := p.value.0;
      var m := Match(lines, p.value.1, Comma);
      if m.0 {
        assert ParameterList(lines, c, acc) == ParameterList(lines, m.1, acc + [x]);
        assert ParameterList(lines, c, []) == ParameterList(lines, m.1, [] + [x]);
        assert [] + [x] == [x];
        ParameterListInOrder(lines, m.1, acc + [x]);
        ParameterListInOrder(lines, m.1, [x]);
        PrependTwice(acc, x, ParameterList(lines, m.1, []));
      } else {
        assert ParameterList(lines, c, []) == Ok(([] + [x], p.value.1));
        assert [] + [x] == [x];
      }
    }
  }

  /** The statements of a block are kept in line order, skipping the lines that parse to null. */
  lemma {:induction false} BlockLoopInOrder(lines: Lines, c: Cursor, expected: int, acc: seq<Node>)
    requires 0 <= c.li <= |lines|
    ensures BlockLoop(lines, c, expected, acc) == Prepend(acc, BlockLoop(lines, c, expected, []))
    decreases LinesLeft(lines, c)
  {
    if IsEndOfFile(lines, c) {
      assert acc + [] == acc;
    } else {
      var actual := IndentLevel(lines[c.li]);
      if actual < expected {
        assert acc + [] == acc;
      } else if actual == expected {
        var s := Statement(lines, Cursor(c.li, actual));
        if s.Ok? {
          var next := NextLine(lines, s.value.1).1;
          if s.value.0.Some? {
            var x := s.value.0.value;
            assert BlockLoop(lines, c, expected, acc) == BlockLoop(lines, next, expected, acc + [x]);
            assert BlockLoop(lines, c, expected, []) == BlockLoop(lines, next, expected, [] + [x]);
            assert [] + [x] == [x];
            BlockLoopInOrder(lines, next, expected, acc + [x]);
            BlockLoopInOrder(lines, next, expected, [x]);
            PrependTwice(acc, x, BlockLoop(lines, next, expected, []));
          } else {
            assert BlockLoop(lines, c, expected, acc) == BlockLoop(lines, next, expected, acc);
            assert BlockLoop(lines, c, expected, []) == BlockLoop(lines, next, expected, []);
            BlockLoopInOrder(lines, next, expected, acc);
          }
        }
      }
    }
  }

  // ---------------------------------------------------------------------------------
  // Types
  // ---------------------------------------------------------------------------------

  /**
   * `base<param>`: a generic type of one parameter. The closing check accepts any
   * Operator token, not only `>`; a token of another kind (other than a comma, which
   * continues the parameter list) is refused unless it is spelled "<".
   */
  lemma GenericTypeClosing(base: Token, open: Token, param: Token, close: Token)
    requires base.kind == Type || base.kind == Identifier
    requires open == Token(Operator, "<", open.line, open.column)
    requires param.kind == Type || param.kind == Identifier
    requires close.kind != Comma && close.value != "<"
    ensures close.kind == Operator ==>
      FullType([[base, open, param, close]], Cursor(0, 0)) ==
        Ok((GenericTypeNode(base.value, [SimpleTypeNode(param.value)]), Cursor(0, 4)))
    ensures close.kind != Operator ==>
      FullType([[base, open, param, close]], Cursor(0, 0)) == Err("Expected > to close generic type")
  {
    var lines: Lines := [[base, open, param, close]];
    assert Current(lines, Cursor(0, 3)) == close;
    assert FullType(lines, Cursor(0, 2)) == Ok((SimpleTypeNode(param.value), Cursor(0, 3)));
    assert !Check(lines, Cursor(0, 3), Comma);
    assert TypeParameters(lines, Cursor(0, 2), []) == Ok(([] + [SimpleTypeNode(param.value)], Cursor(0, 3)));
    assert [] + [SimpleTypeNode(param.value)] == [SimpleTypeNode(param.value)];
  }
}
