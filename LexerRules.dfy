/**
 * The scanning rules of the lexer stated as properties of its specification
 * (`Lexer.Step`, `Lexer.LexRest`, `Lexer.LexLine`, `Lexer.LexLines`).
 */
module LexerRules {
  import opened Wrappers
  import opened Tokens
  import Text
  import opened Lexer

  /** An operator character is a one-character word that is neither keyword nor type. */
  lemma OperatorCharIsIdentifierWord(a: char)
    requires IsOperatorChar(a)
    ensures IsKeyword([a]) == Identifier
  {
    Text.TrimUnpadded([a]);
  }

  /** The second of two operator characters reaches the operator-pair rule with both characters pending. */
  lemma SecondOperatorChar(st: LexState, a: char, b: char)
    requires st.kind == Operator && st.value == [a] && !st.inComment
    requires IsOperatorChar(a) && IsOperatorChar(b)
    ensures Step(st, b) == OperatorPair(st.(index := st.index + 1, value := [a, b]))
  {
    OperatorCharIsIdentifierWord(a);
    var s1 := st.(index := st.index + 1, inComment := false);
    assert s1 == st.(index := st.index + 1);
    assert KeywordBoundary(s1, Operator) == s1;
    assert AfterKeywordCheck(s1, b, Operator) == SameKind(s1, b, Operator);
    assert SameKind(s1, b, Operator) == OperatorStringOrSingle(s1, b, Operator);
    assert s1.value + [b] == [a, b];
  }

  lemma OperatorPairOutcome(p: LexState, a: char, b: char)
    requires p.kind == Operator && p.value == [a, b] && !p.inComment
    requires IsOperatorChar(a) && IsOperatorChar(b)
    ensures var (r, brk) := OperatorPair(p);
      r.kind == TokenType.None && r.value == "" && r.stringOpen == p.stringOpen && r.index == p.index &&
      (brk <==> [a, b] == "//") &&
      (r.inComment <==> [a, b] == "/*") &&
      r.tokens == p.tokens +
        (if [a, b] == ">>" then [Token(Operator, ">", p.line, p.index), Token(Operator, ">", p.line, p.index)]
         else if [a, b] == "//" || [a, b] == "/*" || [a, b] == "*/" then []
         else [Token(Operator, [a, b], p.line, p.index)])
  {
    Text.TrimUnpadded([a, b]);
    Text.TrimUnpadded(">");
    assert !Dropped([a, b]) && !Dropped(">");
  }

  /**
   * Two adjacent operator characters form one token, except that `>>` gives two `>`
   * tokens, `/*` opens a block comment, `*/` is dropped and `//` ends the line.
   */
  lemma OperatorPairRule(st: LexState, a: char, b: char)
    requires st.kind == Operator && st.value == [a] && !st.inComment
    requires IsOperatorChar(a) && IsOperatorChar(b)
    ensures var (r, brk) := Step(st, b);
      var col := st.index + 1;
      r.kind == TokenType.None && r.value == "" && r.stringOpen == st.stringOpen &&
      (brk <==> [a, b] == "//") &&
      (r.inComment <==> [a, b] == "/*") &&
      r.tokens == st.tokens +
        (if [a, b] == ">>" then [Token(Operator, ">", st.line, col), Token(Operator, ">", st.line, col)]
         else if [a, b] == "//" || [a, b] == "/*" || [a, b] == "*/" then []
         else [Token(Operator, [a, b], st.line, col)])
  {
    SecondOperatorChar(st, a, b);
    OperatorPairOutcome(st.(index := st.index + 1, value := [a, b]), a, b);
  }

  /** Outside a string, a space ends the pending token; a keyword or type word is emitted as such. */
  lemma {:induction false} SpaceEndsToken(st: LexState)
    requires st.kind != String && !st.inComment && st.value != ""
    ensures var (r, brk) := Step(st, ' ');
      var kw := IsKeyword(st.value);
      var v := Text.Trim(st.value);
      !brk && r.kind == TokenType.None && r.value == "" &&
      r.tokens == st.tokens + (if Dropped(v) then [] else [Token(if kw == Identifier then st.kind else kw, v, st.line, st.index + 1)])
  {
  }

  /** An identifier that is not a keyword or type absorbs a following digit. */
  lemma {:induction false} IdentifierAbsorbsDigit(st: LexState, d: char)
    requires st.kind == Identifier && IsKeyword(st.value) == Identifier && !st.inComment && IsDigit(d)
    ensures Step(st, d) == (st.(index := st.index + 1, value := st.value + [d]), false)
  {
  }

  /** A number absorbs a following digit or '.'. */
  lemma {:induction false} NumberAbsorbsDigitOrDot(st: LexState, d: char)
    requires st.kind == Number && IsKeyword(st.value) == Identifier && !st.inComment
    requires IsDigit(d) || d == '.'
    ensures Step(st, d) == (st.(index := st.index + 1, value := st.value + [d]), false)
  {
  }

  /** `//` at a token boundary discards everything after it on the line. */
  lemma {:induction false} LineCommentDiscardsRest(st: LexState, rest: string)
    requires st.kind == TokenType.None && st.value == "" && !st.inComment
    ensures LexRest(st, "//" + rest, 0) == st.(index := st.index + 2)
  {
    var line := "//" + rest;
    var s1 := Step(st, '/').0;
    assert s1 == st.(index := st.index + 1, kind := Operator, value := "/");
    OperatorPairRule(s1, '/', '/');
  }

  /** Inside a block comment, characters other than '*' and '/' are skipped without effect. */
  lemma {:induction false} CommentSkips(st: LexState, line: string, i: nat)
    requires st.inComment && i <= |line|
    requires forall k :: i <= k < |line| ==> line[k] != '*' && line[k] != '/'
    ensures LexRest(st, line, i) == st.(index := st.index + |line| - i)
    decreases |line| - i
  {
    if i < |line| {
      CommentSkips(st.(index := st.index + 1), line, i + 1);
    }
  }

  /** A line with no '*' or '/' inside a block comment yields no tokens and leaves the comment open. */
  lemma CommentSpansLines(line: string, lineNo: int)
    requires forall k :: 0 <= k < |line| ==> line[k] != '*' && line[k] != '/'
    ensures LexLine(line, lineNo, true) == Ok(([], true))
  {
    CommentSkips(StartOfLine(lineNo, true), line, 0);
  }

  /** The state after the opening quote and the first `k` characters of a string literal's body. */
  function InString(st: LexState, body: string, k: nat): LexState
    requires k <= |body|
  {
    st.(kind := String, value := "\"" + body[..k], stringOpen := true, index := st.index + 1 + k, inComment := false)
  }

  /** A character of a string literal's body is appended to the pending string. */
  lemma StringBodyChar(s: LexState, y: char)
    requires s.kind == String && s.stringOpen && !s.inComment && |s.value| > 0 && s.value[0] == '"'
    requires y != '"' && y != '.'
    ensures Step(s, y) == (s.(index := s.index + 1, value := s.value + [y]), false)
  {
    QuotedIsIdentifier(s.value);
    var s1 := s.(index := s.index + 1);
    var t := IdentifyTokenType(y);
    assert t != String && t != Dot;
    assert KeywordBoundary(s1, t) == s1;
    assert Step(s, y) == AfterKeywordCheck(s1, y, t);
  }

  /** One step of the character loop that does not break. */
  lemma LexRestUnfold(st: LexState, line: string, i: nat)
    requires i < |line| && !Step(st, line[i]).1
    ensures LexRest(st, line, i) == LexRest(Step(st, line[i]).0, line, i + 1)
  {
  }

  lemma StringBodyStep(st: LexState, body: string, k: nat)
    requires !st.inComment
    requires forall j :: 0 <= j < |body| ==> body[j] != '"' && body[j] != '.'
    requires 0 < k <= |body|
    ensures var line := "\"" + body + "\"";
      LexRest(InString(st, body, k - 1), line, k) == LexRest(InString(st, body, k), line, k + 1)
  {
    var line := "\"" + body + "\"";
    var s := InString(st, body, k - 1);
    var y := body[k - 1];
    assert line[k] == y;
    StringBodyChar(s, y);
    assert s.value + [y] == "\"" + body[..k] by {
      assert body[..k] == body[..k - 1] + [y];
    }
    assert Step(s, y).0 == InString(st, body, k);
    LexRestUnfold(s, line, k);
  }

  lemma {:induction false} StringBodyScan(st: LexState, body: string, k: nat)
    requires st.kind == TokenType.None && st.value == "" && !st.inComment
    requires forall j :: 0 <= j < |body| ==> body[j] != '"' && body[j] != '.'
    requires k <= |body|
    ensures LexRest(st, "\"" + body + "\"", 0) == LexRest(InString(st, body, k), "\"" + body + "\"", k + 1)
  {
    var line := "\"" + body + "\"";
    if k == 0 {
      assert line[0] == '"';
      OpeningQuote(st);
      assert "\"" + body[..0] == "\"";
      LexRestUnfold(st, line, 0);
    } else {
      StringBodyScan(st, body, k - 1);
      StringBodyStep(st, body, k);
    }
  }

  /** An opening quote at a token boundary starts a pending string. */
  lemma OpeningQuote(st: LexState)
    requires st.kind == TokenType.None && st.value == "" && !st.inComment
    ensures Step(st, '"') == (st.(index := st.index + 1, kind := String, value := "\"", stringOpen := true), false)
  {
    var s1 := st.(index := st.index + 1);
    assert IsKeyword(st.value) == Identifier by { assert Text.Trim("") == ""; }
    assert KeywordBoundary(s1, String) == s1;
    assert Step(st, '"') == SameKind(s1, '"', String);
  }

  /**
   * A string literal without '"' or '.' in its body is emitted as one String token
   * holding both quotes, and the scanner is back at a token boundary.
   */
  lemma {:induction false} StringLiteralIsOneToken(st: LexState, body: string)
    requires st.kind == TokenType.None && st.value == "" && !st.inComment
    requires forall j :: 0 <= j < |body| ==> body[j] != '"' && body[j] != '.'
    ensures var lit := "\"" + body + "\"";
      LexRest(st, lit, 0) ==
        st.(index := st.index + |lit|, stringOpen := false, tokens := st.tokens + [Token(String, lit, st.line, st.index + |lit|)])
  {
    StringBodyScan(st, body, |body|);
    StringClose(st, body);
  }

  lemma StringClose(st: LexState, body: string)
    requires !st.inComment
    ensures var lit := "\"" + body + "\"";
      LexRest(InString(st, body, |body|), lit, |body| + 1) ==
        st.(index := st.index + |lit|, kind := TokenType.None, value := "", stringOpen := false,
            tokens := st.tokens + [Token(String, lit, st.line, st.index + |lit|)])
  {
    var lit := "\"" + body + "\"";
    var s := InString(st, body, |body|);
    assert body[..|body|] == body;
    assert lit[|body| + 1] == '"';
    Text.TrimUnpadded(lit);
    assert s.value + "\"" == lit;
    ClosingQuote(s, lit);
    LexRestUnfold(s, lit, |body| + 1);
  }

  lemma ClosingQuote(s: LexState, lit: string)
    requires s.kind == String && s.stringOpen && !s.inComment && s.value + "\"" == lit
    requires |s.value| > 0 && s.value[0] == '"' && Text.Trim(lit) == lit
    ensures Step(s, '"') ==
      (s.(index := s.index + 1, kind := TokenType.None, value := "", stringOpen := false,
          tokens := s.tokens + [Token(String, lit, s.line, s.index + 1)]), false)
  {
    QuotedIsIdentifier(s.value);
    var s1 := s.(index := s.index + 1);
    assert KeywordBoundary(s1, String) == s1;
    assert AfterKeywordCheck(s1, '"', String) == SameKind(s1, '"', String);
    assert SameKind(s1, '"', String) == OperatorStringOrSingle(s1, '"', String);
    assert !Dropped(lit);
  }

  /** Whether the character loop from `line[i]` on stops early (after `//`). */
  function ScanBreaks(st: LexState, line: string, i: nat): bool
    requires i <= |line|
    decreases |line| - i
  {
    if i == |line| then false
    else
      var (st', brk) := Step(st, line[i]);
      brk || ScanBreaks(st', line, i + 1)
  }

  /** A prefix the loop runs through without stopping can be scanned first, the rest from the state it leaves. */
  lemma {:induction false} LexRestAppend(st: LexState, a: string, b: string, i: nat)
    requires i <= |a| && !ScanBreaks(st, a, i)
    ensures LexRest(st, a + b, i) == LexRest(LexRest(st, a, i), a + b, |a|)
    decreases |a| - i
  {
    if i < |a| {
      assert (a + b)[i] == a[i];
      LexRestAppend(Step(st, a[i]).0, a, b, i + 1);
    }
  }

  /** Inside an open string, a run of characters without '"' or '.' leaves the string open to the end of the line. */
  lemma {:induction false} StringStaysOpen(s: LexState, line: string, i: nat)
    requires s.kind == String && s.stringOpen && !s.inComment && |s.value| > 0 && s.value[0] == '"'
    requires i <= |line|
    requires forall j :: i <= j < |line| ==> line[j] != '"' && line[j] != '.'
    ensures LexRest(s, line, i).kind == String && LexRest(s, line, i).stringOpen
    decreases |line| - i
  {
    if i < |line| {
      StringBodyChar(s, line[i]);
      StringStaysOpen(s.(index := s.index + 1, value := s.value + [line[i]]), line, i + 1);
    }
  }

  /** Text the scanner runs through from the start of a line without `//`, ending at a token boundary outside a comment. */
  predicate BoundaryPrefix(pre: string, lineNo: int)
  {
    var st := StartOfLine(lineNo, false);
    var s := LexRest(st, pre, 0);
    !ScanBreaks(st, pre, 0) && s.kind == TokenType.None && s.value == "" && !s.inComment
  }

  /** Text with no '"' (which would close a string) and no '.' (which the scanner treats as a string's end). */
  predicate NoQuoteOrDot(body: string)
  {
    forall j :: 0 <= j < |body| ==> body[j] != '"' && body[j] != '.'
  }

  /**
   * A line whose last '"' opens a string that neither a '"' nor a '.' follows raises
   * the tokenizer error naming that line. Whatever precedes the quote must leave the
   * scanner at a token boundary, outside a comment and without a `//`.
   */
  lemma {:induction false} UnfinishedStringRaises(pre: string, body: string, lineNo: int)
    requires BoundaryPrefix(pre, lineNo) && NoQuoteOrDot(body)
    ensures LexLine(pre + "\"" + body, lineNo, false) == Err(UnfinishedStringError(lineNo))
  {
    UnfinishedStringScan(pre, body, lineNo);
    var r := LexRest(StartOfLine(lineNo, false), pre + "\"" + body, 0);
    assert FlushLine(r) == AddTokenSpec(r, String, r.value);
  }

  /** The scan of such a line ends inside the string the quote opened. */
  lemma {:induction false} UnfinishedStringScan(pre: string, body: string, lineNo: int)
    requires BoundaryPrefix(pre, lineNo) && NoQuoteOrDot(body)
    ensures var r := LexRest(StartOfLine(lineNo, false), pre + "\"" + body, 0);
      r.kind == String && r.stringOpen
  {
    var st := StartOfLine(lineNo, false);
    var line := pre + "\"" + body;
    assert line == pre + ("\"" + body);
    LexRestAppend(st, pre, "\"" + body, 0);
    assert line[|pre|] == '"';
    forall j | |pre| + 1 <= j < |line|
      ensures line[j] != '"' && line[j] != '.'
    {
      assert line[j] == body[j - |pre| - 1];
    }
    QuoteThenBody(LexRest(st, pre, 0), line, |pre|);
  }

  /** From a token boundary, a '"' followed by no '"' and no '.' leaves a string open at the end of the line. */
  lemma QuoteThenBody(s: LexState, line: string, i: nat)
    requires i < |line| && line[i] == '"' && s.kind == TokenType.None && s.value == "" && !s.inComment
    requires forall j :: i + 1 <= j < |line| ==> line[j] != '"' && line[j] != '.'
    ensures LexRest(s, line, i).kind == String && LexRest(s, line, i).stringOpen
  {
    OpeningQuote(s);
    LexRestUnfold(s, line, i);
    StringStaysOpen(s.(index := s.index + 1, kind := String, value := "\"", stringOpen := true), line, i + 1);
  }

  /** The block-comment flag after lexing the first `k` lines, or the first error among them. */
  function CommentAfter(lines: seq<string>, lineNo: int, inComment: bool, k: nat): Result<bool>
    requires k <= |lines|
    decreases k
  {
    if k == 0 then Ok(inComment)
    else
      match LexLine(lines[0], lineNo, inComment)
      case Err(e) => Err(e)
      case Ok((_, c)) => CommentAfter(lines[1..], lineNo + 1, c, k - 1)
  }

  /**
   * When the lines before line `k` lex without error and leave no block comment open,
   * a failure on line `k` is the failure of the lexing of all lines.
   */
  lemma {:induction false} FirstFailingLine(lines: seq<string>, lineNo: int, inComment: bool, k: nat, failing: int, msg: string)
    requires k < |lines| && CommentAfter(lines, lineNo, inComment, k) == Ok(false)
    requires failing == lineNo + k && LexLine(lines[k], failing, false) == Err(msg)
    ensures LexLines(lines, lineNo, inComment) == Err(msg)
    decreases k
  {
    if k == 0 {
      assert !inComment && LexLine(lines[0], lineNo, inComment) == Err(msg);
      LexLinesFirstErr(lines, lineNo, inComment);
    } else {
      FailingLineInTail(lines, lineNo, inComment, k, failing, msg);
      var first := LexLine(lines[0], lineNo, inComment).value;
      LexLinesStep(lines, lineNo, inComment);
      FirstFailingLine(lines[1..], lineNo + 1, first.1, k - 1, failing, msg);
      assert Prepend([first.0], Err(msg)) == Err(msg);
    }
  }

  /** The conditions of `FirstFailingLine` carry over from the lines to their tail. */
  lemma FailingLineInTail(lines: seq<string>, lineNo: int, inComment: bool, k: nat, failing: int, msg: string)
    requires 0 < k < |lines| && CommentAfter(lines, lineNo, inComment, k) == Ok(false)
    requires failing == lineNo + k && LexLine(lines[k], failing, false) == Err(msg)
    ensures LexLine(lines[0], lineNo, inComment).Ok?
    ensures var c := LexLine(lines[0], lineNo, inComment).value.1;
      && k - 1 < |lines[1..]| && CommentAfter(lines[1..], lineNo + 1, c, k - 1) == Ok(false)
      && failing == lineNo + 1 + (k - 1) && LexLine(lines[1..][k - 1], failing, false) == Err(msg)
  {
    CommentAfterTail(lines, lineNo, inComment, k);
    assert lines[1..][k - 1] == lines[k];
  }

  /** Lines whose first line fails to lex fail with that line's error. */
  lemma LexLinesFirstErr(lines: seq<string>, lineNo: int, inComment: bool)
    requires |lines| > 0 && LexLine(lines[0], lineNo, inComment).Err?
    ensures LexLines(lines, lineNo, inComment) == Err(LexLine(lines[0], lineNo, inComment).msg)
  {
  }

  /** Past a first line that lexes, the flag after `k` lines is the flag after the next `k - 1` from the one it leaves. */
  lemma CommentAfterTail(lines: seq<string>, lineNo: int, inComment: bool, k: nat)
    requires 0 < k <= |lines| && CommentAfter(lines, lineNo, inComment, k).Ok?
    ensures LexLine(lines[0], lineNo, inComment).Ok?
    ensures CommentAfter(lines[1..], lineNo + 1, LexLine(lines[0], lineNo, inComment).value.1, k - 1)
      == CommentAfter(lines, lineNo, inComment, k)
  {
  }

  /** The lexing of lines whose first line lexes continues with the rest, from the flag the first line leaves. */
  lemma LexLinesStep(lines: seq<string>, lineNo: int, inComment: bool)
    requires |lines| > 0 && LexLine(lines[0], lineNo, inComment).Ok?
    ensures var first := LexLine(lines[0], lineNo, inComment).value;
      LexLines(lines, lineNo, inComment) == Prepend([first.0], LexLines(lines[1..], lineNo + 1, first.1))
  {
  }

  /**
   * The same for the whole of `tokenize`, whose lines are numbered from 1: an unfinished
   * string on line `k + 1`, after lines that lex and close their block comments, is the
   * error `tokenize` raises.
   */
  lemma UnfinishedStringStopsTokenize(lines: seq<string>, k: nat, pre: string, body: string)
    requires k < |lines| && CommentAfter(lines, 1, false, k) == Ok(false)
    requires lines[k] == pre + "\"" + body
    requires BoundaryPrefix(pre, k + 1) && NoQuoteOrDot(body)
    ensures TokenizeLines(lines) == Err(UnfinishedStringError(k + 1))
  {
    UnfinishedStringRaises(pre, body, k + 1);
    FirstFailingLine(lines, 1, false, k, k + 1, UnfinishedStringError(k + 1));
  }


  /** Every token `addToken` emits is trimmed and printable and carries the current line. */
  lemma AddTokenKeeps(st: LexState, kind: TokenType, value: string)
    requires TokensOk(st)
    ensures TokensOk(AddTokenSpec(st, kind, value))
  {
    Text.TrimIdempotent(value);
  }

  lemma AddPreviousKeeps(st: LexState)
    requires TokensOk(st)
    ensures TokensOk(AddPrevious(st))
  {
    var s0 := st.(index := st.index - 1);
    AddTokenKeeps(s0, st.kind, st.value);
    var a := AddTokenSpec(s0, st.kind, st.value);
    assert AddPrevious(st) == a.(index := st.index);
  }

  lemma OperatorPairKeeps(st: LexState)
    requires TokensOk(st)
    ensures TokensOk(OperatorPair(st).0)
  {
    var v := st.value;
    if v == "*/" {
      ResetKeeps(st);
    } else if v != "//" && v != "/*" && v != ">>" {
      AddTokenKeeps(st, st.kind, v);
      ResetKeeps(AddTokenSpec(st, st.kind, v));
    } else if v == ">>" {
      AddTokenKeeps(st, st.kind, ">");
      var a := AddTokenSpec(st, st.kind, ">");
      AddTokenKeeps(a, st.kind, ">");
      ResetKeeps(AddTokenSpec(a, st.kind, ">"));
    } else {
      ResetKeeps(st);
    }
  }

  lemma OperatorStringOrSingleKeeps(st: LexState, y: char, t: TokenType)
    requires TokensOk(st)
    ensures TokensOk(OperatorStringOrSingle(st, y, t).0)
  {
    if t == Operator && st.kind == Operator {
      OperatorPairKeeps(st.(value := st.value + [y]));
    } else if t == String && st.kind != String {
    } else if t == String && st.kind == String {
      var c := st.(value := st.value + [y], stringOpen := false);
      AddTokenKeeps(c, c.kind, c.value);
      ResetKeeps(AddTokenSpec(c, c.kind, c.value));
    } else {
      var s1 := if |st.value| > 0 then AddPrevious(st) else st;
      if |st.value| > 0 { AddPreviousKeeps(st); }
      var s2 := s1.(kind := t, value := [y]);
      AddTokenKeeps(s2, t, [y]);
      ResetKeeps(AddTokenSpec(s2, t, [y]));
    }
  }

  lemma SameKindKeeps(st: LexState, y: char, t: TokenType)
    requires TokensOk(st)
    ensures TokensOk(SameKind(st, y, t).0)
  {
    OperatorStringOrSingleKeeps(st, y, t);
  }

  lemma SwitchKindKeeps(st: LexState, y: char, t: TokenType)
    requires TokensOk(st)
    ensures TokensOk(SwitchKind(st, y, t).0)
  {
    var s1 := if |st.value| > 0 then AddPrevious(st) else st;
    if |st.value| > 0 { AddPreviousKeeps(st); }
    if s1.kind == String {
      SameKindKeeps(s1, y, t);
    }
  }

  lemma AfterKeywordCheckKeeps(st: LexState, y: char, t: TokenType)
    requires TokensOk(st)
    ensures TokensOk(AfterKeywordCheck(st, y, t).0)
  {
    if t != st.kind && st.kind != TokenType.None && t != Dot {
      if !(st.kind == String && st.stringOpen) && !(st.kind == Identifier && t == Number) {
        SwitchKindKeeps(st, y, t);
      }
    } else {
      SameKindKeeps(st, y, t);
    }
  }

  lemma ResetKeeps(st: LexState)
    requires TokensOk(st)
    ensures TokensOk(Reset(st))
  {
  }

  lemma FlushAtSpaceKeeps(st: LexState)
    requires TokensOk(st)
    ensures TokensOk(FlushAtSpace(st))
  {
    if st.value != "" {
      var kw := IsKeyword(st.value);
      AddTokenKeeps(st, if kw == Identifier then st.kind else kw, st.value);
    }
  }

  lemma KeywordBoundaryKeeps(st: LexState, t: TokenType)
    requires TokensOk(st)
    ensures TokensOk(KeywordBoundary(st, t))
  {
    AddTokenKeeps(st, IsKeyword(st.value), st.value);
  }

  /** The part of a step after the comment test keeps the tokens well formed. */
  lemma OpenStepKeeps(st: LexState, y: char)
    requires TokensOk(st)
    ensures var t := IdentifyTokenType(y);
      TokensOk(if y == ' ' && st.kind != String then FlushAtSpace(st) else AfterKeywordCheck(KeywordBoundary(st, t), y, t).0)
  {
    var t := IdentifyTokenType(y);
    if y == ' ' && st.kind != String {
      FlushAtSpaceKeeps(st);
    } else {
      KeywordBoundaryKeeps(st, t);
      AfterKeywordCheckKeeps(KeywordBoundary(st, t), y, t);
    }
  }

  /** Outside a comment, or at `*` or `/`, a step clears the comment flag and goes on to the space test. */
  lemma OpenStep(st: LexState, y: char)
    requires !(st.inComment && y != '*' && y != '/')
    ensures var s1 := st.(index := st.index + 1, inComment := false); var t := IdentifyTokenType(y);
      Step(st, y).0 == if y == ' ' && s1.kind != String then FlushAtSpace(s1) else AfterKeywordCheck(KeywordBoundary(s1, t), y, t).0
  {
  }

  /** One character never emits a malformed token or one with another line number. */
  lemma StepKeepsTokensOk(st: LexState, y: char)
    requires TokensOk(st)
    ensures TokensOk(Step(st, y).0)
  {
    if st.inComment && y != '*' && y != '/' {
      assert Step(st, y).0 == st.(index := st.index + 1);
    } else {
      var s1 := st.(index := st.index + 1, inComment := false);
      assert TokensOk(s1);
      OpenStep(st, y);
      OpenStepKeeps(s1, y);
    }
  }

  lemma {:induction false} LexRestKeepsTokensOk(st: LexState, line: string, i: nat)
    requires TokensOk(st) && i <= |line|
    ensures TokensOk(LexRest(st, line, i))
    decreases |line| - i
  {
    if i < |line| {
      StepKeepsTokensOk(st, line[i]);
      var (st', brk) := Step(st, line[i]);
      if !brk {
        LexRestKeepsTokensOk(st', line, i + 1);
      }
    }
  }

  lemma FlushLineKeeps(st: LexState)
    requires TokensOk(st)
    ensures TokensOk(FlushLine(st))
  {
    if st.kind == Identifier {
      AddTokenKeeps(st, IsKeyword(st.value), st.value);
    } else if st.kind != TokenType.None {
      AddTokenKeeps(st, st.kind, st.value);
    }
  }

  /** Every token of a line is trimmed, printable and carries that line's number. */
  lemma LexLineTokensOk(line: string, lineNo: int, inComment: bool)
    ensures var r := LexLine(line, lineNo, inComment);
      r.Ok? ==> forall k :: 0 <= k < |r.value.0| ==> WellFormed(r.value.0[k]) && r.value.0[k].line == lineNo
  {
    var s0 := StartOfLine(lineNo, inComment);
    LexRestKeepsTokensOk(s0, line, 0);
    FlushLineKeeps(LexRest(s0, line, 0));
  }

  /**
   * Each source line yields exactly one token line, in source order, and the `k`-th
   * holds only well-formed tokens numbered `lineNo + k`.
   */
  lemma {:induction false} LexLinesShape(lines: seq<string>, lineNo: int, inComment: bool)
    ensures var r := LexLines(lines, lineNo, inComment);
      r.Ok? ==> (|r.value| == |lines| &&
        forall k, j :: 0 <= k < |lines| && 0 <= j < |r.value[k]| ==>
          WellFormed(r.value[k][j]) && r.value[k][j].line == lineNo + k)
  {
    if lines != [] {
      LexLineTokensOk(lines[0], lineNo, inComment);
      var first := LexLine(lines[0], lineNo, inComment);
      if first.Ok? {
        LexLinesShape(lines[1..], lineNo + 1, first.value.1);
        var rest := LexLines(lines[1..], lineNo + 1, first.value.1);
        if rest.Ok? {
          var r := LexLines(lines, lineNo, inComment);
          assert r.value == [first.value.0] + rest.value;
          forall k, j | 0 <= k < |lines| && 0 <= j < |r.value[k]|
            ensures WellFormed(r.value[k][j]) && r.value[k][j].line == lineNo + k
          {
            if k > 0 {
              assert r.value[k] == rest.value[k - 1];
            }
          }
        }
      }
    }
  }

  /** `removeEmpty` keeps exactly the non-empty lines. */
  lemma {:induction false} NonEmptyLinesMembers(ls: seq<seq<Token>>, l: seq<Token>)
    ensures l in NonEmptyLines(ls) <==> l in ls && l != []
  {
    if ls != [] {
      NonEmptyLinesMembers(ls[..|ls| - 1], l);
      assert ls == ls[..|ls| - 1] + [ls[|ls| - 1]];
    }
  }

  /** `removeEmpty` keeps relative order: it distributes over concatenation. */
  lemma {:induction false} NonEmptyLinesAppend(a: seq<seq<Token>>, b: seq<seq<Token>>)
    ensures NonEmptyLines(a + b) == NonEmptyLines(a) + NonEmptyLines(b)
    decreases |b|
  {
    if b == [] {
      assert a + b == a;
    } else {
      var b' := b[..|b| - 1];
      assert (a + b)[..|a + b| - 1] == a + b';
      NonEmptyLinesAppend(a, b');
    }
  }
}
