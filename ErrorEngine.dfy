/**
 * The diagnostics printer: the leading-pipe stripper and the `~~~` pointer under the
 * offending word, and the error engine object with its two counters. Output to the
 * error stream is modelled as the list of lines written.
 */
module ErrorEngine {
  import opened Wrappers
  import Text

  /** `n` copies of one character. */
  function Repeat(c: char, n: nat): (s: string)
    ensures |s| == n && forall k :: 0 <= k < n ==> s[k] == c
  {
    if n == 0 then "" else Repeat(c, n - 1) + [c]
  }

  // ---------------------------------------------------------------------------------
  // The leading-pipe stripper of printSourceLine
  // ---------------------------------------------------------------------------------

  /** The characters the stripper removes from the front of a source line: `|` and whitespace. */
  predicate IsIndentChar(c: char)
  {
    c == '|' || Text.IsWhitespace(c)
  }

  /** How many indentation characters lead `line`, counting from index `i`. */
  function LeadingRun(line: string, i: nat): (k: nat)
    requires i <= |line|
    ensures i <= k <= |line|
    decreases |line| - i
  {
    if i < |line| && IsIndentChar(line[i]) then LeadingRun(line, i + 1) else i
  }

  lemma {:induction false} LeadingRunSpec(line: string, i: nat)
    requires i <= |line|
    requires forall k :: 0 <= k < i ==> IsIndentChar(line[k])
    ensures forall k :: 0 <= k < LeadingRun(line, i) ==> IsIndentChar(line[k])
    ensures LeadingRun(line, i) == |line| || !IsIndentChar(line[LeadingRun(line, i)])
    decreases |line| - i
  {
    if i < |line| && IsIndentChar(line[i]) {
      LeadingRunSpec(line, i + 1);
    }
  }

  /**
   * The stripper: removes the leading run of `|` and whitespace and returns the rest
   * together with the number of characters removed.
   */
  method RemoveLeadingPipesAndSpaces(line: string) returns (code: string, removed: nat)
    ensures removed == LeadingRun(line, 0)
    ensures removed <= |line| && line[..removed] + code == line
    ensures forall k :: 0 <= k < removed ==> IsIndentChar(line[k])
    ensures removed == |line| || !IsIndentChar(line[removed])
  {
    var startPos := 0;
    while startPos < |line| && IsIndentChar(line[startPos])
      invariant startPos <= |line|
      invariant LeadingRun(line, startPos) == LeadingRun(line, 0)
      invariant forall k :: 0 <= k < startPos ==> IsIndentChar(line[k])
      decreases |line| - startPos
    {
      startPos := startPos + 1;
    }
    LeadingRunSpec(line, 0);
    code, removed := line[startPos..], startPos;
  }

  /** What remains after stripping has no leading `|` or whitespace, so stripping it again removes nothing. */
  lemma StrippingTwiceRemovesNothing(line: string)
    ensures LeadingRun(line[LeadingRun(line, 0)..], 0) == 0
  {
    LeadingRunSpec(line, 0);
  }

  // ---------------------------------------------------------------------------------
  // generatePointer
  // ---------------------------------------------------------------------------------

  /** The pointer used when the column is outside the cleaned line: spaces then `^`, or nothing for a negative column. */
  function Caret(originalColumn: int): (p: string)
    ensures originalColumn < 0 ==> p == ""
    ensures originalColumn >= 0 ==> |p| == originalColumn + 1 && p[originalColumn] == '^'
  {
    if originalColumn >= 0 then Repeat(' ', originalColumn) + "^" else ""
  }

  /** Moving left from `i` while the character before is not whitespace. */
  function WordStart(line: string, i: nat): (k: nat)
    requires i <= |line|
    ensures k <= i
  {
    if i > 0 && !Text.IsWhitespace(line[i - 1]) then WordStart(line, i - 1) else i
  }

  /** Moving right from `i` while the character after is not whitespace. */
  function WordEnd(line: string, i: nat): (k: nat)
    requires i < |line|
    ensures i <= k < |line|
    decreases |line| - i
  {
    if i < |line| - 1 && !Text.IsWhitespace(line[i + 1]) then WordEnd(line, i + 1) else i
  }

  lemma {:induction false} WordStartSpec(line: string, i: nat)
    requires i <= |line|
    ensures forall k :: WordStart(line, i) <= k < i ==> !Text.IsWhitespace(line[k])
    ensures WordStart(line, i) == 0 || Text.IsWhitespace(line[WordStart(line, i) - 1])
  {
    if i > 0 && !Text.IsWhitespace(line[i - 1]) {
      WordStartSpec(line, i - 1);
    }
  }

  lemma {:induction false} WordEndSpec(line: string, i: nat)
    requires i < |line|
    ensures forall k :: i < k <= WordEnd(line, i) ==> !Text.IsWhitespace(line[k])
    ensures WordEnd(line, i) == |line| - 1 || Text.IsWhitespace(line[WordEnd(line, i) + 1])
    decreases |line| - i
  {
    if i < |line| - 1 && !Text.IsWhitespace(line[i + 1]) {
      WordEndSpec(line, i + 1);
    }
  }

  /** `generatePointer` as a value: the word around the adjusted column underlined with `~`. */
  function Pointer(cleanedLine: string, originalColumn: int, removedCharsCount: int): string
  {
    var adjusted := originalColumn - removedCharsCount;
    if adjusted < 0 || adjusted >= |cleanedLine| then Caret(originalColumn)
    else
      var wordStart := WordStart(cleanedLine, adjusted);
      var wordEnd := WordEnd(cleanedLine, adjusted);
      var highlightLength := wordEnd - wordStart + 1;
      if highlightLength <= 0 then Caret(originalColumn)
      else Repeat(' ', wordStart) + Repeat('~', highlightLength)
  }

  /**
   * The pointer's shape. Outside the cleaned line it is the caret. Inside, it is
   * `wordStart` spaces and then tildes up to `wordEnd`, so its length is at most the
   * line's. The tildes cover the adjusted column, every other covered character is not
   * whitespace, and the span cannot be widened on either side.
   */
  lemma PointerShape(line: string, originalColumn: int, removedCharsCount: int)
    ensures var adjusted := originalColumn - removedCharsCount;
      (adjusted < 0 || adjusted >= |line|) ==> Pointer(line, originalColumn, removedCharsCount) == Caret(originalColumn)
    ensures var adjusted := originalColumn - removedCharsCount;
      0 <= adjusted < |line| ==>
        var p := Pointer(line, originalColumn, removedCharsCount);
        var ws := WordStart(line, adjusted);
        var we := WordEnd(line, adjusted);
        ws <= adjusted <= we && |p| == we + 1 <= |line| &&
        (forall k :: 0 <= k < ws ==> p[k] == ' ') &&
        (forall k :: ws <= k <= we ==> p[k] == '~') &&
        (forall k :: ws <= k <= we && k != adjusted ==> !Text.IsWhitespace(line[k])) &&
        (ws == 0 || Text.IsWhitespace(line[ws - 1])) &&
        (we == |line| - 1 || Text.IsWhitespace(line[we + 1]))
  {
    var adjusted := originalColumn - removedCharsCount;
    if 0 <= adjusted < |line| {
      WordStartSpec(line, adjusted);
      WordEndSpec(line, adjusted);
    }
  }

  /** The `highlightLength <= 0` guard of `generatePointer` never fires. */
  lemma HighlightNeverEmpty(line: string, adjusted: nat)
    requires adjusted < |line|
    ensures WordEnd(line, adjusted) - WordStart(line, adjusted) + 1 > 0
  {
  }

  /** `generatePointer` with its two scanning loops. */
  method GeneratePointer(cleanedLine: string, originalColumn: int, removedCharsCount: int) returns (p: string)
    ensures p == Pointer(cleanedLine, originalColumn, removedCharsCount)
  {
    var adjustedColumn := originalColumn - removedCharsCount;
    if adjustedColumn < 0 || adjustedColumn >= |cleanedLine| {
      if originalColumn >= 0 {
        return Repeat(' ', originalColumn) + "^";
      }
      return "";
    }
    var wordStart: nat := adjustedColumn;
    while wordStart > 0 && !Text.IsWhitespace(cleanedLine[wordStart - 1])
      invariant wordStart <= adjustedColumn
      invariant WordStart(cleanedLine, wordStart) == WordStart(cleanedLine, adjustedColumn)
    {
      wordStart := wordStart - 1;
    }
    var wordEnd: nat := adjustedColumn;
    while wordEnd < |cleanedLine| - 1 && !Text.IsWhitespace(cleanedLine[wordEnd + 1])
      invariant adjustedColumn <= wordEnd < |cleanedLine|
      invariant WordEnd(cleanedLine, wordEnd) == WordEnd(cleanedLine, adjustedColumn)
      decreases |cleanedLine| - wordEnd
    {
      wordEnd := wordEnd + 1;
    }
    // the source's `highlightLength <= 0` guard cannot fire here (HighlightNeverEmpty)
    var highlightLength := wordEnd - wordStart + 1;
    p := Repeat(' ', wordStart) + Repeat('~', highlightLength);
  }

  // ---------------------------------------------------------------------------------
  // The engine object
  // ---------------------------------------------------------------------------------

  /** `std::setw(5)`: right-justifies a field to five characters. */
  function Width5(s: string): (r: string)
    ensures |s| < 5 ==> |r| == 5 && r[5 - |s|..] == s
    ensures |s| >= 5 ==> r == s
  {
    if |s| < 5 then Repeat(' ', 5 - |s|) + s else s
  }

  /** The first line of every diagnostic: kind, one-based line and column, message. */
  function Header(line: int, column: int, errorType: string, message: string): string
  {
    errorType + " [line " + Text.IntToString(line + 1) + ", column " + Text.IntToString(column + 1) + "]: " + message
  }

  class ErrorEngine {
    /** The source lines the engine quotes from; None when initialised without source. */
    var sourceLines: Option<seq<string>>
    var errorCount: int
    var warningCount: int

    constructor ()
      ensures sourceLines.None? && errorCount == 0 && warningCount == 0
    {
      sourceLines := None;
      errorCount := 0;
      warningCount := 0;
    }

    /** `initialize(lines)`: remembers the source and resets both counters. */
    method Initialize(lines: seq<string>)
      modifies this
      ensures sourceLines == Some(lines) && errorCount == 0 && warningCount == 0
    {
      sourceLines := Some(lines);
      errorCount := 0;
      warningCount := 0;
    }

    /** `initialize()`: forgets the source and resets both counters. */
    method InitializeWithoutSource()
      modifies this
      ensures sourceLines.None? && errorCount == 0 && warningCount == 0
    {
      sourceLines := None;
      errorCount := 0;
      warningCount := 0;
    }

    /**
     * What `printSourceLine` writes: a note when there is no source or the line is out
     * of range, otherwise the numbered line with its leading pipes and whitespace
     * stripped and the pointer under it.
     */
    function SourceQuote(line: int, column: int): (r: seq<string>)
      reads this
      ensures |r| == if sourceLines.Some? && 0 <= line < |sourceLines.value| then 2 else 1
      ensures sourceLines.None? ==> r == ["    (Can't reach source code)"]
      ensures sourceLines.Some? && 0 <= line < |sourceLines.value| ==>
        var original := sourceLines.value[line];
        var removed := LeadingRun(original, 0);
        var prefix := Width5(Text.IntToString(line + 1)) + " | ";
        |prefix| <= |r[0]| && r[0][..|prefix|] == prefix
        && original[..removed] + r[0][|prefix|..] == original
        && (|r[0]| == |prefix| || !IsIndentChar(r[0][|prefix|]))
        && r[1] == Width5("") + " | " + Pointer(r[0][|prefix|..], column, removed)
    {
      if sourceLines.None? then ["    (Can't reach source code)"]
      else if 0 <= line < |sourceLines.value| then
        var original := sourceLines.value[line];
        var removed := LeadingRun(original, 0);
        LeadingRunSpec(original, 0);
        [Width5(Text.IntToString(line + 1)) + " | " + original[removed..],
         Width5("") + " | " + Pointer(original[removed..], column, removed)]
      else ["    (Can't reach source code at line " + Text.IntToString(line + 1) + ")"]
    }

    /**
     * Everything `printError` writes before it throws: the header, the quoted source
     * when the engine holds a non-empty source, and the hint when it is not empty.
     */
    function Diagnostic(line: int, column: int, errorType: string, message: string, hint: string): (r: seq<string>)
      reads this
      ensures |r| >= 1 && r[0] == Header(line, column, errorType, message)
      ensures hint != "" ==> r[|r| - 1] == "    Hint: " + hint
      ensures |r| == 1 + (if sourceLines.Some? && |sourceLines.value| > 0 then |SourceQuote(line, column)| else 0)
                     + (if hint == "" then 0 else 1)
    {
      [Header(line, column, errorType, message)]
      + (if sourceLines.Some? && |sourceLines.value| > 0 then SourceQuote(line, column) else [])
      + (if hint != "" then ["    Hint: " + hint] else [])
    }

    /**
     * `printSourceLine`: the quoted line with its leading pipes stripped, and the
     * pointer under it; a note instead when the line is out of range.
     */
    method PrintSourceLine(line: int, column: int) returns (out: seq<string>)
      ensures out == SourceQuote(line, column)
      ensures sourceLines.None? ==> out == ["    (Can't reach source code)"]
      ensures sourceLines.Some? && !(0 <= line < |sourceLines.value|) ==>
        out == ["    (Can't reach source code at line " + Text.IntToString(line + 1) + ")"]
      ensures sourceLines.Some? && 0 <= line < |sourceLines.value| ==>
        var original := sourceLines.value[line];
        var removed := LeadingRun(original, 0);
        out == [Width5(Text.IntToString(line + 1)) + " | " + original[removed..],
                Width5("") + " | " + Pointer(original[removed..], column, removed)]
    {
      if sourceLines.None? {
        return ["    (Can't reach source code)"];
      }
      var lines := sourceLines.value;
      if 0 <= line < |lines| {
        var codeLine, removedCharsCount := RemoveLeadingPipesAndSpaces(lines[line]);
        var pointer := GeneratePointer(codeLine, column, removedCharsCount);
        out := [Width5(Text.IntToString(line + 1)) + " | " + codeLine, Width5("") + " | " + pointer];
      } else {
        out := ["    (Can't reach source code at line " + Text.IntToString(line + 1) + ")"];
      }
    }

    /**
     * `printError`: the header, the quoted source when there is any, and the hint when
     * it is not empty. It then always throws; `out` is what it wrote before that.
     */
    method PrintError(line: int, column: int, errorType: string, message: string, hint: string) returns (out: seq<string>)
      ensures |out| >= 1 && out[0] == Header(line, column, errorType, message)
      ensures hint != "" ==> out[|out| - 1] == "    Hint: " + hint
      ensures (sourceLines.None? || sourceLines.value == []) ==> |out| == if hint == "" then 1 else 2
      ensures out == Diagnostic(line, column, errorType, message, hint)
    {
      out := [Header(line, column, errorType, message)];
      if sourceLines.Some? && |sourceLines.value| > 0 {
        var quoted := PrintSourceLine(line, column);
        out := out + quoted;
      }
      if hint != "" {
        out := out + ["    Hint: " + hint];
      }
    }

    /**
     * `report`: prints and throws. The error counter increment after `printError` is
     * never reached, so the counters keep their values.
     */
    method Report(line: int, column: int, moduleName: string, message: string, errorType: string) returns (thrown: seq<string>)
      ensures |thrown| >= 1 && thrown[0] == Header(line, column, errorType, message)
      ensures thrown == Diagnostic(line, column, errorType, message, "")
      ensures errorCount == old(errorCount) && warningCount == old(warningCount)
    {
      thrown := PrintError(line, column, errorType, message, "");
    }

    /** `reportWithHint`: like `report`, with the hint printed last. */
    method ReportWithHint(line: int, column: int, moduleName: string, message: string, hint: string, errorType: string)
      returns (thrown: seq<string>)
      ensures |thrown| >= 1 && thrown[0] == Header(line, column, errorType, message)
      ensures hint != "" ==> thrown[|thrown| - 1] == "    Hint: " + hint
      ensures thrown == Diagnostic(line, column, errorType, message, hint)
      ensures errorCount == old(errorCount) && warningCount == old(warningCount)
    {
      thrown := PrintError(line, column, errorType, message, hint);
    }

    /** `warn`: prints as a "Warn" and throws, so the warning counter is never incremented. */
    method Warn(line: int, column: int, message: string) returns (thrown: seq<string>)
      ensures |thrown| >= 1 && thrown[0] == Header(line, column, "Warn", message)
      ensures thrown == Diagnostic(line, column, "Warn", message, "")
      ensures errorCount == old(errorCount) && warningCount == old(warningCount)
    {
      thrown := PrintError(line, column, "Warn", message, "");
    }
  }
}
