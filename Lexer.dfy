/**
 * The line-oriented lexer (src/lexer/Lexer.cpp). Each source line is scanned
 * character by character by a small state machine whose state is the kind and
 * text of the pending token, the column, the open-string and comment flags and
 * the tokens emitted so far on the line.
 *
 * `Step` is the specification of one character, `LexLine` of one line and
 * `LexLines`/`TokenizeSpec` of the whole text; the class `Lexer` is the
 * imperative scanner, proved to compute them.
 */
module Lexer {
  import opened Wrappers
  import opened Tokens
  import Text

  // ---------------------------------------------------------------------------
  // Character and keyword classification

  predicate IsAsciiLetter(c: char) { 'a' <= c <= 'z' || 'A' <= c <= 'Z' }
  predicate IsDigit(c: char) { '0' <= c <= '9' }
  predicate IsOperatorChar(c: char)
  {
    c == '+' || c == '-' || c == '*' || c == '%' || c == '/' || c == '^' || c == '=' || c == '!' || c == '<' || c == '>'
  }

  /** The kind a single character starts or continues; unknown characters count as identifier text. */
  function IdentifyTokenType(c: char): (t: TokenType)
    ensures t != TokenType.None && t != Type && t != Keyword
    ensures t == Operator <==> IsOperatorChar(c)
    ensures t == Number <==> IsDigit(c)
    ensures t == String <==> c == '"'
    ensures t == Dot <==> c == '.'
  {
    if IsAsciiLetter(c) || c == '_' then Identifier
    else if c == '.' then Dot
    else if IsDigit(c) then Number
    else if c == '"' then String
    else if IsOperatorChar(c) then Operator
    else if c == '(' then LeftParen
    else if c == ')' then RightParen
    else if c == '[' then LeftBracket
    else if c == ']' then RightBracket
    else if c == '{' then LeftBrace
    else if c == '}' then RightBrace
    else if c == ',' then Comma
    else if c == ';' then Semicolon
    else if c == ':' then Colon
    else if c == '|' then Pipe
    else Identifier
  }

  const Keywords: seq<string> := [
    "if", "and", "or", "else", "while", "for", "return", "break", "continue", "true",
    "false", "null", "import", "const", "in", "is", "final", "public", "private", "this",
    "none", "defiend"
  ]

  const BuiltinTypeWords: seq<string> := [
    "i32", "i64", "bool", "string", "void", "array", "map", "float", "struct", "class"
  ]

  /** Keyword, Type or Identifier, decided on the trimmed text: the keyword list is searched first. */
  function IsKeyword(value: string): TokenType
  {
    var v := Text.Trim(value);
    if v in Keywords then Keyword
    else if v in BuiltinTypeWords then Type
    else Identifier
  }

  /** The keyword and type lists do not overlap, so the order of the two searches does not matter. */
  lemma KeywordListsDisjoint(w: string)
    ensures !(w in Keywords && w in BuiltinTypeWords)
  {
  }

  /** Surrounding whitespace never changes the classification of a word. */
  lemma {:induction false} IsKeywordIgnoresPadding(value: string)
    ensures IsKeyword(value) == IsKeyword(Text.Trim(value))
    ensures IsKeyword(value) == Keyword <==> Text.Trim(value) in Keywords
    ensures IsKeyword(value) == Type <==> Text.Trim(value) in BuiltinTypeWords
  {
    Text.TrimIdempotent(value);
    KeywordListsDisjoint(Text.Trim(value));
  }

  /** Text that starts with a quote (as every pending string literal does) is never a keyword or type. */
  lemma QuotedIsIdentifier(value: string)
    requires |value| > 0 && value[0] == '"'
    ensures IsKeyword(value) == Identifier
  {
    var v := Text.Trim(value);
    assert Text.FirstNonWhitespace(value, 0) == 0;
    Text.EndOfNonWhitespaceSpec(value, |value|);
    assert v[0] == '"';
  }

  // ---------------------------------------------------------------------------
  // Scanner state and token emission

  /** The scanner state of one line: the fields `currentTokenType` ... `currentTokens` of the lexer. */
  datatype LexState = LexState(
    kind: TokenType,       // currentTokenType
    value: string,         // currentTokenValue
    index: int,            // currentIndex: column of the character being processed
    line: int,             // currentLine
    stringOpen: bool,      // isStringnotFinished
    inComment: bool,       // isInMultilineComment
    tokens: seq<Token>)    // currentTokens

  /**
   * `addToken` keeps a token only when its trimmed text starts with a character whose
   * code as a signed char is at least 33: empty and whitespace texts, control characters
   * and bytes of 128 and above (negative as a signed char) are dropped.
   */
  predicate Dropped(trimmed: string)
  {
    trimmed == [] || (trimmed[0] as int) < 33 || (trimmed[0] as int) >= 128
  }

  /** A token `addToken` can emit: trimmed, non-empty and starting with a printable character. */
  predicate WellFormed(t: Token)
  {
    t.value == Text.Trim(t.value) && !Dropped(t.value)
  }

  /** The invariant of a line's state: its tokens are well formed and carry the line's number. */
  predicate TokensOk(st: LexState)
  {
    forall k :: 0 <= k < |st.tokens| ==> WellFormed(st.tokens[k]) && st.tokens[k].line == st.line
  }

  function AddTokenSpec(st: LexState, kind: TokenType, value: string): (r: LexState)
    ensures r.kind == st.kind && r.value == st.value && r.index == st.index && r.line == st.line
    ensures r.stringOpen == st.stringOpen && r.inComment == st.inComment
    ensures Dropped(Text.Trim(value)) ==> r.tokens == st.tokens
    ensures !Dropped(Text.Trim(value)) ==>
      r.tokens == st.tokens + [Token(kind, Text.Trim(value), st.line, st.index)]
  {
    var trimmed := Text.Trim(value);
    if Dropped(trimmed) then st
    else st.(tokens := st.tokens + [Token(kind, trimmed, st.line, st.index)])
  }

  /** `addToken` with the column of the previous character (`currentIndex--` ... `currentIndex++`). */
  function AddPrevious(st: LexState): (r: LexState)
    ensures r.index == st.index && r.line == st.line
  {
    AddTokenSpec(st.(index := st.index - 1), st.kind, st.value).(index := st.index)
  }

  function Reset(st: LexState): (r: LexState)
  {
    st.(kind := TokenType.None, value := "")
  }

  // ---------------------------------------------------------------------------
  // One character

  /**
   * The body of the character loop for character `y` (the loop's `peek(0)` is `y`).
   * The boolean is true when the loop breaks out of the line (after `//`).
   */
  function Step(st0: LexState, y: char): (r: (LexState, bool))
    ensures r.0.index == st0.index + 1 && r.0.line == st0.line
  {
    var st := st0.(index := st0.index + 1);
    if st.inComment && y != '*' && y != '/' then (st, false)
    else
      var st := st.(inComment := false);
      var t := IdentifyTokenType(y);
      if y == ' ' && st.kind != String then (FlushAtSpace(st), false)
      else AfterKeywordCheck(KeywordBoundary(st, t), y, t)
  }

  /** Lines 33-40: at a space the pending text is emitted, as a keyword or type when it is one. */
  function FlushAtSpace(st: LexState): (r: LexState)
    ensures r.index == st.index && r.line == st.line
  {
    if st.value != "" then
      var kw := IsKeyword(st.value);
      Reset(AddTokenSpec(st, if kw == Identifier then st.kind else kw, st.value))
    else st
  }

  /** Lines 44-53: pending keyword or type text is emitted when the next character cannot continue a word. */
  function KeywordBoundary(st: LexState, t: TokenType): (r: LexState)
    ensures r.index == st.index && r.line == st.line
  {
    var kw := IsKeyword(st.value);
    if kw != Identifier && t != Identifier then Reset(AddTokenSpec(st, kw, st.value)) else st
  }

  /** Lines 56-86 of the character loop: a change of kind. */
  function AfterKeywordCheck(st: LexState, y: char, t: TokenType): (r: (LexState, bool))
    ensures r.0.index == st.index && r.0.line == st.line
  {
    if t != st.kind && st.kind != TokenType.None && t != Dot then
      if st.kind == String && st.stringOpen then (st.(value := st.value + [y]), false)
      else if st.kind == Identifier && t == Number then (st.(value := st.value + [y]), false)
      else SwitchKind(st, y, t)
    else SameKind(st, y, t)
  }

  /** Lines 71-85: the pending token is emitted and the new character starts a token of its own kind. */
  function SwitchKind(st: LexState, y: char, t: TokenType): (r: (LexState, bool))
    ensures r.0.index == st.index && r.0.line == st.line
  {
    var st := if |st.value| > 0 then AddPrevious(st) else st;
    if st.kind != String then
      (st.(kind := t, value := [y], stringOpen := if t == String then true else st.stringOpen), false)
    else SameKind(st, y, t)
  }

  /** Lines 88-124 of the character loop: continuing or starting an identifier, number or operator. */
  function SameKind(st: LexState, y: char, t: TokenType): (r: (LexState, bool))
    ensures r.0.index == st.index && r.0.line == st.line
  {
    if t == Identifier && st.kind == TokenType.None then (st.(kind := t, value := [y]), false)
    else if t == Identifier && st.kind == Identifier then (st.(value := st.value + [y]), false)
    else if t == Number && st.kind == TokenType.None then (st.(kind := t, value := [y]), false)
    else if t == Number && st.kind == Number then (st.(value := st.value + [y]), false)
    else if t == Dot && st.kind == Number then (st.(value := st.value + [y]), false)
    else if t == Operator && st.kind == TokenType.None then (st.(kind := t, value := [y]), false)
    else OperatorStringOrSingle(st, y, t)
  }

  /** Lines 125-184: an operator pair, a string quote, or a single-character token. */
  function OperatorStringOrSingle(st: LexState, y: char, t: TokenType): (r: (LexState, bool))
    ensures r.0.index == st.index && r.0.line == st.line
  {
    if t == Operator && st.kind == Operator then OperatorPair(st.(value := st.value + [y]))
    else if t == String && st.kind != String then (st.(kind := t, value := [y], stringOpen := true), false)
    else if t == String && st.kind == String then
      var st := st.(value := st.value + [y], stringOpen := false);
      (Reset(AddTokenSpec(st, st.kind, st.value)), false)
    else
      var st := if |st.value| > 0 then AddPrevious(st) else st;
      var st := st.(kind := t, value := [y]);
      (Reset(AddTokenSpec(st, st.kind, st.value)), false)
  }

  /** Lines 125-156: the second character of an operator. */
  function OperatorPair(st: LexState): (r: (LexState, bool))
    ensures r.0.index == st.index && r.0.line == st.line
  {
    var v := st.value;
    if v == "*/" then (Reset(st), false)
    else if v != "//" && v != "/*" && v != ">>" then (Reset(AddTokenSpec(st, st.kind, v)), false)
    else if v == ">>" then (Reset(AddTokenSpec(AddTokenSpec(st, st.kind, ">"), st.kind, ">")), false)
    else if v == "/*" then (Reset(st).(inComment := true), false)
    else (Reset(st), true)
  }

  // ---------------------------------------------------------------------------
  // One line, all lines

  /** The character loop over `line[i..]`, stopping early when a step breaks. */
  function LexRest(st: LexState, line: string, i: nat): (r: LexState)
    requires i <= |line|
    ensures r.line == st.line
    decreases |line| - i
  {
    if i == |line| then st
    else
      var (st', brk) := Step(st, line[i]);
      if brk then st' else LexRest(st', line, i + 1)
  }

  /** Lines 186-190: the pending token is emitted at the end of the line, an identifier after keyword classification. */
  function FlushLine(st: LexState): (r: LexState)
    ensures r.line == st.line
  {
    if st.kind == TokenType.None then st
    else if st.kind == Identifier then AddTokenSpec(st, IsKeyword(st.value), st.value)
    else AddTokenSpec(st, st.kind, st.value)
  }

  function StartOfLine(lineNo: int, inComment: bool): LexState
  {
    LexState(TokenType.None, "", -1, lineNo, false, inComment, [])
  }

  function UnfinishedStringError(lineNo: int): string
  {
    "Tokenizer Error: String not finished properly at line " + Text.IntToString(lineNo)
  }

  /** One source line: its tokens and whether a block comment is still open at its end. */
  function LexLine(line: string, lineNo: int, inComment: bool): Result<(seq<Token>, bool)>
  {
    var st := FlushLine(LexRest(StartOfLine(lineNo, inComment), line, 0));
    if st.stringOpen then Err(UnfinishedStringError(lineNo))
    else Ok((st.tokens, st.inComment))
  }

  /** One token line per source line, numbered from `lineNo`; the block-comment flag carries over. */
  function LexLines(lines: seq<string>, lineNo: int, inComment: bool): Result<seq<seq<Token>>>
  {
    if lines == [] then Ok([])
    else
      match LexLine(lines[0], lineNo, inComment)
      case Err(e) => Err(e)
      case Ok((toks, c)) => Prepend([toks], LexLines(lines[1..], lineNo + 1, c))
  }

  function Prepend(acc: seq<seq<Token>>, r: Result<seq<seq<Token>>>): Result<seq<seq<Token>>>
  {
    if r.Err? then r else Ok(acc + r.value)
  }

  /** `removeEmpty`: the non-empty token lines, in order. */
  function NonEmptyLines(ls: seq<seq<Token>>): (r: seq<seq<Token>>)
    ensures |r| <= |ls|
    ensures forall k :: 0 <= k < |r| ==> r[k] != []
  {
    if ls == [] then []
    else if ls[|ls| - 1] == [] then NonEmptyLines(ls[..|ls| - 1])
    else NonEmptyLines(ls[..|ls| - 1]) + [ls[|ls| - 1]]
  }

  /** The whole of `tokenize` on the lines of a source text. */
  function TokenizeLines(lines: seq<string>): Result<seq<seq<Token>>>
  {
    var r := LexLines(lines, 1, false);
    if r.Err? then r else Ok(NonEmptyLines(r.value))
  }

  /** The lexer built on a source text and then run. */
  function TokenizeSpec(source: string): Result<seq<seq<Token>>>
  {
    TokenizeLines(Text.Split(source))
  }

  // ---------------------------------------------------------------------------
  // The imperative lexer

  class Lexer {
    var sourceCode: seq<string>
    var currentTokens: seq<Token>
    var allTokens: seq<seq<Token>>
    var currentLine: int
    var currentIndex: int
    var currentTokenType: TokenType
    var currentTokenValue: string
    var isStringnotFinished: bool
    var isInMultilineComment: bool

    function State(): LexState
      reads this
    {
      LexState(currentTokenType, currentTokenValue, currentIndex, currentLine,
               isStringnotFinished, isInMultilineComment, currentTokens)
    }

    /** The state the constructor leaves, from which `Tokenize` starts. */
    predicate Fresh()
      reads this
    {
      State() == StartOfLine(1, false) && allTokens == []
    }

    constructor (source: string)
      ensures sourceCode == Text.Split(source)
      ensures Fresh()
    {
      sourceCode := Text.Split(source);
      currentLine := 1;
      currentIndex := -1;
      currentTokenType := TokenType.None;
      currentTokenValue := "";
      isStringnotFinished := false;
      isInMultilineComment := false;
      currentTokens := [];
      allTokens := [];
    }

    method AddToken(kind: TokenType, value: string)
      modifies this
      ensures State() == AddTokenSpec(old(State()), kind, value)
      ensures sourceCode == old(sourceCode) && allTokens == old(allTokens)
    {
      var trimmed := Text.Trim(value);
      if Dropped(trimmed) {
        return;
      }
      currentTokens := currentTokens + [Token(kind, trimmed, currentLine, currentIndex)];
    }

    method ResetValues()
      modifies this
      ensures State() == Reset(old(State()))
      ensures sourceCode == old(sourceCode) && allTokens == old(allTokens)
    {
      currentTokenType := TokenType.None;
      currentTokenValue := "";
    }

    /** A pending token is emitted with the column of the previous character. */
    method AddPendingAtPreviousColumn()
      modifies this
      ensures State() == if |old(currentTokenValue)| > 0 then AddPrevious(old(State())) else old(State())
      ensures sourceCode == old(sourceCode) && allTokens == old(allTokens)
    {
      if |currentTokenValue| > 0 {
        currentIndex := currentIndex - 1;
        AddToken(currentTokenType, currentTokenValue);
        currentIndex := currentIndex + 1;
      }
    }

    /** One iteration of the character loop; `brk` is the loop's `break`. */
    method ProcessChar(y: char) returns (brk: bool)
      modifies this
      ensures (State(), brk) == Step(old(State()), y)
      ensures sourceCode == old(sourceCode) && allTokens == old(allTokens)
    {
      brk := false;
      currentIndex := currentIndex + 1;
      if isInMultilineComment {
        if y != '*' && y != '/' {
          return;
        } else {
          isInMultilineComment := false;
        }
      }
      brk := ProcessOpenChar(y);
    }

    /** Lines 28-184: the iteration once the block-comment test has let the character through. */
    method ProcessOpenChar(y: char) returns (brk: bool)
      modifies this
      ensures var st := old(State()); var t := IdentifyTokenType(y);
        (State(), brk) == if y == ' ' && st.kind != String then (FlushAtSpace(st), false)
                          else AfterKeywordCheck(KeywordBoundary(st, t), y, t)
      ensures sourceCode == old(sourceCode) && allTokens == old(allTokens)
    {
      var t := IdentifyTokenType(y);
      if y == ' ' && currentTokenType != String {
        FlushPendingAtSpace();
        return false;
      }
      EmitKeywordAtBoundary(t);
      brk := ChangeKind(y, t);
    }

    /** Lines 33-40 of the character loop. */
    method FlushPendingAtSpace()
      modifies this
      ensures State() == FlushAtSpace(old(State()))
      ensures sourceCode == old(sourceCode) && allTokens == old(allTokens)
    {
      if currentTokenValue != "" {
        var kw := IsKeyword(currentTokenValue);
        if kw == Identifier {
          AddToken(currentTokenType, currentTokenValue);
        } else {
          AddToken(kw, currentTokenValue);
        }
        ResetValues();
      }
    }

    /** Lines 44-53 of the character loop. */
    method EmitKeywordAtBoundary(t: TokenType)
      modifies this
      ensures State() == KeywordBoundary(old(State()), t)
      ensures sourceCode == old(sourceCode) && allTokens == old(allTokens)
    {
      var kw := IsKeyword(currentTokenValue);
      if kw != Identifier && t != Identifier {
        AddToken(kw, currentTokenValue);
        ResetValues();
      }
    }

    /** Lines 56-86 of the character loop. */
    method ChangeKind(y: char, t: TokenType) returns (brk: bool)
      modifies this
      ensures (State(), brk) == AfterKeywordCheck(old(State()), y, t)
      ensures sourceCode == old(sourceCode) && allTokens == old(allTokens)
    {
      brk := false;
      if t != currentTokenType && currentTokenType != TokenType.None && t != Dot {
        if currentTokenType == String && isStringnotFinished {
          currentTokenValue := currentTokenValue + [y];
          return;
        }
        if currentTokenType == Identifier && t == Number {
          currentTokenValue := currentTokenValue + [y];
          return;
        }
        brk := SwitchToKind(y, t);
        return;
      }
      brk := ContinueOrStart(y, t);
    }

    /** Lines 71-85 of the character loop. */
    method SwitchToKind(y: char, t: TokenType) returns (brk: bool)
      modifies this
      ensures (State(), brk) == SwitchKind(old(State()), y, t)
      ensures sourceCode == old(sourceCode) && allTokens == old(allTokens)
    {
      brk := false;
      AddPendingAtPreviousColumn();
      if currentTokenType != String {
        currentTokenType := t;
        currentTokenValue := [y];
        if t == String {
          isStringnotFinished := true;
        }
        return;
      }
      brk := ContinueOrStart(y, t);
    }

    /** Lines 88-124 of the character loop. */
    method ContinueOrStart(y: char, t: TokenType) returns (brk: bool)
      modifies this
      ensures (State(), brk) == SameKind(old(State()), y, t)
      ensures sourceCode == old(sourceCode) && allTokens == old(allTokens)
    {
      brk := false;
      if t == Identifier && currentTokenType == TokenType.None {
        currentTokenType := t;
        currentTokenValue := [y];
      } else if t == Identifier && currentTokenType == Identifier {
        currentTokenValue := currentTokenValue + [y];
      } else if t == Number && currentTokenType == TokenType.None {
        currentTokenType := t;
        currentTokenValue := [y];
      } else if t == Number && currentTokenType == Number {
        currentTokenValue := currentTokenValue + [y];
      } else if t == Dot && currentTokenType == Number {
        currentTokenValue := currentTokenValue + [y];
      } else if t == Operator && currentTokenType == TokenType.None {
        currentTokenType := t;
        currentTokenValue := [y];
      } else {
        brk := OperatorStringOrSingleChar(y, t);
      }
    }

    /** Lines 125-184 of the character loop. */
    method OperatorStringOrSingleChar(y: char, t: TokenType) returns (brk: bool)
      modifies this
      ensures (State(), brk) == OperatorStringOrSingle(old(State()), y, t)
      ensures sourceCode == old(sourceCode) && allTokens == old(allTokens)
    {
      brk := false;
      if t == Operator && currentTokenType == Operator {
        currentTokenValue := currentTokenValue + [y];
        brk := PairOperator();
      } else if t == String && currentTokenType != String {
        currentTokenType := t;
        currentTokenValue := [y];
        isStringnotFinished := true;
      } else if t == String && currentTokenType == String {
        CloseString(y);
      } else {
        EmitSingleChar(y, t);
      }
    }

    /** Lines 165-173: a quote closes the open string, which is emitted with both quotes. */
    method CloseString(y: char)
      modifies this
      ensures var st := old(State()).(value := old(currentTokenValue) + [y], stringOpen := false);
        State() == Reset(AddTokenSpec(st, st.kind, st.value))
      ensures sourceCode == old(sourceCode) && allTokens == old(allTokens)
    {
      currentTokenValue := currentTokenValue + [y];
      isStringnotFinished := false;
      AddToken(currentTokenType, currentTokenValue);
      ResetValues();
    }

    /** Lines 174-183: the pending token is emitted, then the character as a token of its own. */
    method EmitSingleChar(y: char, t: TokenType)
      modifies this
      ensures var flushed := if |old(currentTokenValue)| > 0 then AddPrevious(old(State())) else old(State());
        var st := flushed.(kind := t, value := [y]);
        State() == Reset(AddTokenSpec(st, st.kind, st.value))
      ensures sourceCode == old(sourceCode) && allTokens == old(allTokens)
    {
      AddPendingAtPreviousColumn();
      currentTokenType := t;
      currentTokenValue := [y];
      AddToken(currentTokenType, currentTokenValue);
      ResetValues();
    }

    /** Lines 127-155: the pending operator has just received its second character. */
    method PairOperator() returns (brk: bool)
      modifies this
      ensures (State(), brk) == OperatorPair(old(State()))
      ensures sourceCode == old(sourceCode) && allTokens == old(allTokens)
    {
      brk := false;
      if currentTokenValue == "*/" {
        ResetValues();
      } else if currentTokenValue != "//" && currentTokenValue != "/*" && currentTokenValue != ">>" {
        AddToken(currentTokenType, currentTokenValue);
        ResetValues();
      } else if currentTokenValue == ">>" {
        AddToken(currentTokenType, ">");
        AddToken(currentTokenType, ">");
        ResetValues();
      } else if currentTokenValue == "/*" {
        ResetValues();
        isInMultilineComment := true;
      } else {
        ResetValues();
        brk := true;
      }
    }

    /** One pass of the line loop (lines 19-198): scan, flush, and either raise or store the line. */
    method TokenizeLine(x: string) returns (ok: bool)
      requires State() == StartOfLine(currentLine, isInMultilineComment)
      modifies this
      ensures var res := LexLine(x, old(currentLine), old(isInMultilineComment));
        ok == res.Ok? &&
        (ok ==> allTokens == old(allTokens) + [res.value.0] && State() == StartOfLine(old(currentLine) + 1, res.value.1))
      ensures sourceCode == old(sourceCode)
    {
      ScanLine(x);
      EndLine();
      if isStringnotFinished {
        return false;
      }
      allTokens := allTokens + [currentTokens];
      currentTokens := [];
      currentIndex := -1;
      currentTokenType := TokenType.None;
      currentTokenValue := "";
      currentLine := currentLine + 1;
      ok := true;
    }

    /** Lines 186-190: the pending token of the line is emitted. */
    method EndLine()
      modifies this
      ensures State() == FlushLine(old(State()))
      ensures sourceCode == old(sourceCode) && allTokens == old(allTokens)
    {
      if currentTokenType != TokenType.None {
        if currentTokenType == Identifier {
          AddToken(IsKeyword(currentTokenValue), currentTokenValue);
        } else {
          AddToken(currentTokenType, currentTokenValue);
        }
      }
    }

    /** The character loop over one line, from the state at the start of that line. */
    method ScanLine(line: string)
      modifies this
      ensures State() == LexRest(old(State()), line, 0)
      ensures sourceCode == old(sourceCode) && allTokens == old(allTokens)
    {
      var i := 0;
      while i < |line|
        invariant 0 <= i <= |line|
        invariant sourceCode == old(sourceCode) && allTokens == old(allTokens)
        invariant LexRest(State(), line, i) == LexRest(old(State()), line, 0)
      {
        var brk := ProcessChar(line[i]);
        if brk {
          return;
        }
        i := i + 1;
      }
    }

    /** `tokenize`: every line in turn, then `removeEmpty`; an unfinished string raises the tokenizer error. */
    method Tokenize() returns (r: Result<()>)
      requires Fresh()
      modifies this
      ensures sourceCode == old(sourceCode)
      ensures var spec := TokenizeLines(old(sourceCode));
        r.Err? == spec.Err? && (r.Err? ==> r.msg == spec.msg) && (r.Ok? ==> allTokens == spec.value)
    {
      var li := 0;
      assert sourceCode[li..] == sourceCode;
      PrependNil(LexLines(sourceCode, 1, false));
      while li < |sourceCode|
        invariant 0 <= li <= |sourceCode|
        invariant sourceCode == old(sourceCode)
        invariant State() == StartOfLine(li + 1, isInMultilineComment)
        invariant LexLines(sourceCode, 1, false) == Prepend(allTokens, LexLines(sourceCode[li..], li + 1, isInMultilineComment))
      {
        var ok := NextSourceLine(li);
        if !ok {
          return Err(UnfinishedStringError(li + 1));
        }
        li := li + 1;
      }
      assert sourceCode[li..] == [];
      assert allTokens + [] == allTokens;
      RemoveEmpty();
      r := Ok(());
    }

    /** One pass of the line loop of `tokenize` over source line `li`, as `LexLines` describes it. */
    method NextSourceLine(li: nat) returns (ok: bool)
      requires li < |sourceCode| && State() == StartOfLine(li + 1, isInMultilineComment)
      modifies this
      ensures sourceCode == old(sourceCode)
      ensures !ok ==> LexLines(sourceCode[li..], li + 1, old(isInMultilineComment)) == Err(UnfinishedStringError(li + 1))
      ensures ok ==> State() == StartOfLine(li + 2, isInMultilineComment)
      ensures ok ==> Prepend(old(allTokens), LexLines(sourceCode[li..], li + 1, old(isInMultilineComment)))
                     == Prepend(allTokens, LexLines(sourceCode[li + 1..], li + 2, isInMultilineComment))
    {
      var x := sourceCode[li];
      ghost var inComment := isInMultilineComment;
      ghost var rest := sourceCode[li + 1..];
      ghost var acc := allTokens;
      assert sourceCode[li..] == [x] + rest;
      LexLinesCons(x, rest, li + 1, inComment);
      ok := TokenizeLine(x);
      if ok {
        PrependAssoc(acc, [LexLine(x, li + 1, inComment).value.0], LexLines(rest, li + 2, isInMultilineComment));
      }
    }

    /** `removeEmpty`: erases the empty token lines in place, keeping the order of the rest. */
    method RemoveEmpty()
      modifies this
      ensures allTokens == NonEmptyLines(old(allTokens))
      ensures State() == old(State()) && sourceCode == old(sourceCode)
    {
      var kept: seq<seq<Token>> := [];
      var i := 0;
      while i < |allTokens|
        invariant 0 <= i <= |allTokens|
        invariant kept == NonEmptyLines(allTokens[..i])
      {
        assert allTokens[..i + 1][..i] == allTokens[..i];
        if allTokens[i] != [] {
          kept := kept + [allTokens[i]];
        }
        i := i + 1;
      }
      assert allTokens[..i] == allTokens;
      allTokens := kept;
    }
  }

  lemma PrependNil(r: Result<seq<seq<Token>>>)
    ensures Prepend([], r) == r
  {
    if r.Ok? {
      assert [] + r.value == r.value;
    }
  }

  /** `LexLines` of a non-empty list, in terms of its first line. */
  lemma LexLinesCons(x: string, rest: seq<string>, lineNo: int, inComment: bool)
    ensures var first := LexLine(x, lineNo, inComment);
      && (first.Err? ==> LexLines([x] + rest, lineNo, inComment) == Err(first.msg))
      && (first.Ok? ==> LexLines([x] + rest, lineNo, inComment) == Prepend([first.value.0], LexLines(rest, lineNo + 1, first.value.1)))
  {
    assert ([x] + rest)[1..] == rest;
  }

  lemma PrependAssoc(acc: seq<seq<Token>>, line: seq<seq<Token>>, r: Result<seq<seq<Token>>>)
    ensures Prepend(acc, Prepend(line, r)) == Prepend(acc + line, r)
  {
    if r.Ok? {
      assert acc + (line + r.value) == (acc + line) + r.value;
    }
  }
}
