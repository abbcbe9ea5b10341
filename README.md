# MONOSCRIPT front end in Dafny

MONOSCRIPT is a small line-oriented language. Each nesting level is written as a leading `|`. Declarations take the forms `Type x = e`, `x ^= e` (inferred), `const` and `final`. Functions are written `[Ret] f(T: p)`. The compiler lexes a file into lines of tokens, parses them into an AST, links imported modules into one program, and checks and annotates the tree with a type/symbol visitor. It then lowers the tree to LLVM.

This project models everything before LLVM, module by module:

| module | models |
|---|---|
| `Tokens`, `Text`, `Lexer`, `LexerRules` | token kinds, `trim`/`split`, the per-character tokenizer state machine (class `Lexer.Lexer`), and the rules it obeys |
| `Ast` | the AST node datatypes and the type-name serialiser `toString` |
| `ParserSpec`, `StatementSpec`, `Parser`, `ParserRules`, `StatementRules` | the parser: a token cursor (class `Parser.Parser`) whose methods are proved equal to pure specification functions; lemmas about precedence, literal typing, blocks and declaration forms |
| `Register`, `BuiltIn` | the type and function registry (class `Register.Registry`) and its built-in contents |
| `TypeRules`, `Scopes`, `ExprCheck`, `Collections`, `Operators`, `StmtCheck`, `Checker` | the type/symbol checker: rule tables, scopes, expression and collection-literal checks, operator handlers, statement visits as functions over the scope stack, and the visitor class `Checker.TypeSymbolVisitor` whose methods are proved equal to those functions |
| `Linker`, `AstTools` | module registration, symbol collection and import resolution (class `Linker.Linker`), and the combined AST and source reconstruction |
| `ErrorEngine` | the error-pointer formatter, the leading-pipe stripper and the error counters |
| `LoopStacks`, `CodeGenTypes` | the loop-block stacks of the code-generation context, the type-name-to-LLVM-kind table, and get-or-declare of functions |
| `Cli` | the command-line argument parser |

Modelling conventions:
- An exception (`throw`, `LogError`, `exit`) becomes the `Err` (or `Exit`) case of a result datatype, with the same message or status.
- An object whose fields the code updates becomes a class.
- A node the checker annotates or replaces through a `shared_ptr&` becomes a function that returns the rewritten node.
- In the checker, a null dereference or an out-of-range `[0]` is undefined behaviour. It becomes an error of its own, `Scopes.Undefined`.
- Type names are strings, as in the source.
- The iteration order of an `unordered_map` is a parameter `order`. The model assumes only that the order lists each key once.
- A C++ `std::map` becomes its entries in key order.

The model follows the code as written. Several lemmas state behaviour the authors probably did not intend:
- every integer literal other than 0 and 1 is typed `i8`;
- `-` and `*` report their last error as `+`;
- a reassignment ignores `const`;
- a comparison initializer is left untyped.

Where the header files disagree with the `.cpp` files, the model follows the `.cpp` files:
- `CLIOptions` has the fields `cli.cpp` uses (`runJIT`, `compileExecutable`, `ExecutableFile`, `offOptimization`), not those in `cli.h`;
- `registerBuiltInFunctions` and `LogError` take one argument;
- `FunctionNode` is built with four arguments.

Two facts about the lexer and parser shape the model: a character the lexer does not recognise becomes identifier text, and a block's nesting is counted in `|` tokens at the start of each line.

## Model

| member | source | states |
|---|---|---|
| Tokens.TokenTypeToStringInjective | src/lexer/headers/Token.h:32-56 | every token kind has its own printed name, and none prints as "Unknown" |
| Text.FirstNonWhitespaceSpec | src/lexer/ParsingFunctions.cpp:22 | `find_first_not_of` gives the first index at or after the start holding a non-whitespace character, and only whitespace is skipped |
| Text.EndOfNonWhitespaceSpec | src/lexer/ParsingFunctions.cpp:25 | `find_last_not_of` plus one ends the text just after its last non-whitespace character; only whitespace follows |
| Text.TrimSpec | src/lexer/ParsingFunctions.cpp:18-27 | `trim` gives "" exactly for empty or all-whitespace text; otherwise the contiguous slice that starts and ends with a non-whitespace character, with only whitespace around it |
| Text.TrimIdempotent | src/lexer/ParsingFunctions.cpp:18-27 | trimming twice is trimming once |
| Text.TrimUnpadded | src/lexer/ParsingFunctions.cpp:18-27 | text with no whitespace at either end is its own trim |
| Text.JoinSplitAll | src/lexer/ParsingFunctions.cpp:5-16 | the pieces between '\n' separators glued with '\n' give back the text |
| Text.SplitAllJoin | src/lexer/ParsingFunctions.cpp:5-16 | splitting pieces that hold no '\n' after gluing them gives back the pieces |
| Text.SplitAllLastEmpty | src/lexer/ParsingFunctions.cpp:10 | the last piece is empty exactly when the text ends in '\n' (and the token iterator then drops it) |
| Text.SplitRoundTrip | src/lexer/ParsingFunctions.cpp:5-16 | the lines `split(s, "\n")` produces, glued with '\n', give back the text less one final '\n' |
| Lexer.IdentifyTokenType | src/lexer/Lexer.cpp:229-266 | a character is an operator, a digit, a quote or a dot exactly when it is classified so; no character is classified as None, Type or Keyword (unknown characters are identifier text) |
| Lexer.KeywordListsDisjoint | src/lexer/Lexer.cpp:270-297 | no word is both in the keyword list and in the built-in type list, so the order of the two searches does not matter |
| Lexer.IsKeywordIgnoresPadding | src/lexer/Lexer.cpp:299-311 | classification is decided on the trimmed word: Keyword exactly for the keyword list, Type exactly for the type list, whatever whitespace surrounds it |
| Lexer.QuotedIsIdentifier | src/lexer/Lexer.cpp:268-312 | text starting with a quote is never a keyword or a type |
| Lexer.AddTokenSpec | src/lexer/Lexer.cpp:220-227 | `addToken` appends the trimmed text with the current line and column unless the trimmed text is empty or starts below code 33 as a signed char; nothing else in the state changes |
| Lexer.NonEmptyLines | src/lexer/Lexer.cpp:330-341 | `removeEmpty` keeps no empty line and never adds lines |
| Lexer.Lexer.constructor | src/lexer/Lexer.cpp:4-13 | the source is split into lines; line 1, column -1, no pending token, no open string or comment |
| Lexer.Lexer.AddToken | src/lexer/Lexer.cpp:220-227 | the new state is `AddTokenSpec` of the old one; the lines and the finished token lines are untouched |
| Lexer.Lexer.ResetValues | src/lexer/Lexer.cpp:324-328 | the pending kind becomes None and the pending text empty |
| Lexer.Lexer.AddPendingAtPreviousColumn | src/lexer/Lexer.cpp:71-76 | a non-empty pending token is emitted with the previous character's column and the column is restored |
| Lexer.Lexer.ProcessChar | src/lexer/Lexer.cpp:19-185 | one iteration of the character loop equals the specification step, including the `break` after `//` |
| Lexer.Lexer.ProcessOpenChar | src/lexer/Lexer.cpp:28-184 | once the comment test lets the character through: a space outside a string flushes the pending text, any other character goes through the keyword boundary and the change-of-kind rules |
| Lexer.Lexer.FlushPendingAtSpace | src/lexer/Lexer.cpp:32-42 | outside a string a space emits the pending text, as a keyword or type when it is one |
| Lexer.Lexer.EmitKeywordAtBoundary | src/lexer/Lexer.cpp:44-53 | pending keyword or type text is emitted when the next character cannot continue a word |
| Lexer.Lexer.ChangeKind | src/lexer/Lexer.cpp:56-86 | a change of kind: an open string absorbs the character, an identifier absorbs a digit, otherwise the pending token is emitted and a new one starts |
| Lexer.Lexer.SwitchToKind | src/lexer/Lexer.cpp:71-85 | the pending token is emitted at the previous column and the character starts a token of its own kind (a quote opens a string) |
| Lexer.Lexer.ContinueOrStart | src/lexer/Lexer.cpp:88-124 | identifiers, numbers (with dots) and operators are started or extended |
| Lexer.Lexer.OperatorStringOrSingleChar | src/lexer/Lexer.cpp:125-184 | an operator pair, a string quote, or a single-character token emitted at once |
| Lexer.Lexer.CloseString | src/lexer/Lexer.cpp:165-173 | the closing quote is appended, the string is marked finished and emitted as one token, and the pending token is cleared |
| Lexer.Lexer.EmitSingleChar | src/lexer/Lexer.cpp:175-184 | the pending token is emitted at the previous column, then the character is emitted as a token of its own kind and the pending token is cleared |
| Lexer.Lexer.PairOperator | src/lexer/Lexer.cpp:125-156 | `*/` is skipped, `>>` becomes two `>` tokens, `/*` opens a block comment, `//` ends the line, any other pair is one token |
| Lexer.Lexer.EndLine | src/lexer/Lexer.cpp:186-190 | at the end of a line the pending token is emitted, an identifier after keyword classification |
| Lexer.Lexer.ScanLine | src/lexer/Lexer.cpp:19-185 | the character loop over a line equals the specification's fold of the step over its characters |
| Lexer.Lexer.TokenizeLine | src/lexer/Lexer.cpp:17-198 | one line: a string still open raises, otherwise the line's tokens are appended and the state restarts on the next line with the block-comment flag carried over |
| Lexer.Lexer.NextSourceLine | src/lexer/Lexer.cpp:17-198 | one pass of the line loop: on an unfinished string the whole run is that error; otherwise the line's tokens join the finished lines and the rest of the run is unchanged |
| Lexer.Lexer.Tokenize | src/lexer/Lexer.cpp:15-201 | the whole run equals `TokenizeLines` of the split source: the same error message on an unfinished string, the same token lines otherwise |
| Lexer.Lexer.RemoveEmpty | src/lexer/Lexer.cpp:330-341 | erasing in place leaves exactly the non-empty lines in their order |
| LexerRules.OperatorCharIsIdentifierWord | src/lexer/Lexer.cpp:268-312 | a one-character operator is never a keyword or a type |
| LexerRules.OperatorPairOutcome | src/lexer/Lexer.cpp:125-156 | for two operator characters: `>>` gives two `>` tokens, `//` breaks out of the line, `/*` opens a block comment, `*/` is dropped, any other pair is one token; the pending token is cleared |
| LexerRules.OperatorPairRule | src/lexer/Lexer.cpp:119-156 | the same outcome stated for the step that reads the second operator character |
| LexerRules.SpaceEndsToken | src/lexer/Lexer.cpp:32-42 | outside a string a space emits the trimmed pending text (as keyword or type when it is one) at the space's column and clears the pending token |
| LexerRules.IdentifierAbsorbsDigit | src/lexer/Lexer.cpp:65-69 | a digit extends a pending identifier |
| LexerRules.NumberAbsorbsDigitOrDot | src/lexer/Lexer.cpp:107-117 | a digit or a dot extends a pending number |
| LexerRules.LineCommentDiscardsRest | src/lexer/Lexer.cpp:151-155 | after `//` the rest of the line produces nothing |
| LexerRules.CommentSkips | src/lexer/Lexer.cpp:22-26 | inside a block comment, characters other than `*` and `/` are skipped |
| LexerRules.CommentSpansLines | src/lexer/Lexer.cpp:22-26 | a line inside an open block comment with no `*` or `/` yields no tokens and leaves the comment open |
| LexerRules.StringBodyChar | src/lexer/Lexer.cpp:58-63 | an open string absorbs any character other than a quote or a dot |
| LexerRules.StringLiteralIsOneToken | src/lexer/Lexer.cpp:158-173 | a quoted literal whose body holds no quote and no dot becomes exactly one String token, quotes included, and the string is closed |
| LexerRules.OpeningQuote | src/lexer/Lexer.cpp:158-164 | a quote with nothing pending opens a string |
| LexerRules.ClosingQuote | src/lexer/Lexer.cpp:165-173 | a quote closes an open string and emits it as one token |
| LexerRules.UnfinishedStringRaises | src/lexer/Lexer.cpp:158-192 | a raw line made of text that leaves the scanner at a token boundary outside a comment, then a quote, then text with no quote and no dot, fails with "Tokenizer Error: String not finished properly at line N" for that line's number |
| LexerRules.UnfinishedStringScan | src/lexer/Lexer.cpp:58-63 | the character loop over such a line ends with a String token pending and the string still open |
| LexerRules.QuoteThenBody | src/lexer/Lexer.cpp:158-164 | from a token boundary, a quote followed by no quote and no dot leaves a string open at the line's end |
| LexerRules.StringStaysOpen | src/lexer/Lexer.cpp:58-63 | an open string stays open across characters other than a quote or a dot |
| LexerRules.LexRestAppend | src/lexer/Lexer.cpp:19-185 | a prefix the loop runs through without a `//` break can be scanned first, the rest continuing from the state it leaves |
| LexerRules.FirstFailingLine | src/lexer/Lexer.cpp:17-197 | when the lines before line k lex and leave no block comment open, the error of line k is the error of the whole run |
| LexerRules.CommentAfterTail | src/lexer/Lexer.cpp:17-197 | the comment flag after k lines is the flag the remaining k - 1 lines leave, starting from the first line's flag |
| LexerRules.UnfinishedStringStopsTokenize | src/lexer/Lexer.cpp:15-199 | `tokenize` on source lines whose line k + 1 opens a string it never closes, after lines that lex and close their comments, raises the unfinished-string error naming line k + 1 |
| LexerRules.StepKeepsTokensOk | src/lexer/Lexer.cpp:19-185 | every token the character loop emits is trimmed, non-empty, starts with a printable character and carries the line's number |
| LexerRules.LexRestKeepsTokensOk | src/lexer/Lexer.cpp:19-185 | the same invariant kept across a whole line |
| LexerRules.LexLineTokensOk | src/lexer/Lexer.cpp:17-198 | a lexed line's tokens are well formed and numbered with that line |
| LexerRules.LexLinesShape | src/lexer/Lexer.cpp:17-199 | a successful run gives one token line per source line, line k numbered k after the first, every token well formed |
| LexerRules.NonEmptyLinesMembers | src/lexer/Lexer.cpp:330-341 | a line survives `removeEmpty` exactly when it was present and not empty |
| LexerRules.NonEmptyLinesAppend | src/lexer/Lexer.cpp:330-341 | `removeEmpty` distributes over concatenation (it keeps order) |
| Parser.Parser.constructor | src/parser/Logic.cpp:13-22 | the parser holds the token lines and the module name, with both indices at 0 |
| Parser.Parser.IsEndOfFile | src/parser/Logic.cpp:129-134 | the answer is the specification's end-of-file test on the cursor |
| Parser.Parser.IsEndOfLine | src/parser/Logic.cpp:136-143 | the answer is the specification's end-of-line test, where a negative token index counts as past the end (the `size_t` comparison) |
| Parser.Parser.Current | src/parser/Logic.cpp:24-33 | the token at the cursor, or the None token past the end of the line or file |
| Parser.Parser.Advance | src/parser/Logic.cpp:35-45 | returns the current token and moves one token on, as the specification's `Advance` |
| Parser.Parser.Check | src/parser/Logic.cpp:61-70 | whether the current token has the given kind, never past the end of the line |
| Parser.Parser.Match | src/parser/Logic.cpp:47-59 | `check`, and on success one token consumed |
| Parser.Parser.Peek | src/parser/Logic.cpp:72-82 | the token after the current one on the same line, or the None token |
| Parser.Parser.NextLine | src/parser/Logic.cpp:84-90 | moves to the start of the next line and says whether one is left |
| Parser.Parser.Consume | src/parser/Logic.cpp:119-127 | succeeds and advances exactly when the specification's `Consume` does; otherwise fails with the given message |
| Parser.Parser.GetIndentLevel | src/parser/Logic.cpp:145-162 | the number of leading Pipe tokens of the line |
| Parser.Parser.GetLastTokenInCurrentLine | src/parser/Logic.cpp:164-178 | the last token of the current line |
| Parser.Parser.GetFullType | src/parser/Logic.cpp:180-221 | the type (with its parameters from the do-while) and the final cursor, or the error, are the specification's `FullType` |
| Parser.Parser.ParseExpression | src/parser/Parsers.cpp:186-189 | equals the specification's `Expression`: `parseBinary` at precedence 0 |
| Parser.Parser.ParseBinary | src/parser/Logic.cpp:235-252 | the precedence-climbing loop equals the specification's `Binary` |
| Parser.Parser.ParseUnary | src/parser/Logic.cpp:254-264 | equals the specification's `Unary` |
| Parser.Parser.ParsePrimary | src/parser/Logic.cpp:266-443 | equals the specification's `Primary` for every token kind, errors included |
| Parser.Parser.ParseArrayLiteral | src/parser/Logic.cpp:353-369 | `[]` is a NoneNode, otherwise the items of the do-while in a block |
| Parser.Parser.ParseMapLiteral | src/parser/Logic.cpp:370-397 | `{}` is a NoneNode, otherwise the key-value entries in a block |
| Parser.Parser.ParseKeywordLiteral | src/parser/Logic.cpp:407-433 | `true`/`false` are i1 numbers, `null` and `none` their nodes, `defiend` a call |
| Parser.Parser.ParseArguments | src/parser/Logic.cpp:326-340 | the argument list of a call in order |
| Parser.Parser.ParseArrayItems | src/parser/Logic.cpp:358-365 | the array items in order while a comma follows |
| Parser.Parser.ParseMapEntries | src/parser/Logic.cpp:376-393 | the map entries in order while a comma follows |
| Parser.Parser.ParseDotNotation | src/parser/Logic.cpp:445-465 | a link naming the member after `.`, with a call when `(` follows |
| Parser.Parser.ParseArrayNotation | src/parser/Logic.cpp:467-481 | a link holding a non-empty index expression between brackets |
| Parser.Parser.ParseMemberExpression | src/parser/Logic.cpp:483-526 | a root name and its links; with no link a plain identifier |
| Parser.Parser.ParseAccessLinks | src/parser/Logic.cpp:496-518 | the links of the member loop in order |
| Parser.Parser.ParseAccessStep | src/parser/Logic.cpp:502-515 | one link of the kind the current token starts |
| Parser.Parser.ParseCall | src/parser/Parsers.cpp:290-316 | callee, `(`, arguments, `)` as the specification's `Call` |
| Parser.Parser.Parse | src/parser/Parser.cpp:10-32 | the program equals the specification's `Program`: one statement per line, an error when a statement leaves tokens on its line |
| Parser.Parser.ParseStatement | src/parser/Parser.cpp:37-189 | the dispatch on the current token, the next one and the line's last one equals the specification's `Statement` |
| Parser.Parser.ParseMemberStatement | src/parser/Parser.cpp:113-136 | a member expression alone, or reassigned after `=`, or the "Expected =" error |
| Parser.Parser.ParseBlock | src/parser/Parsers.cpp:146-172 | the statements of the lines indented exactly as expected, stopping at a shallower line and refusing a deeper one |
| Parser.Parser.ParseFunction | src/parser/Parsers.cpp:6-56 | header, parameters and body one level deeper, as the specification's `Function` |
| Parser.Parser.ParseBody | src/parser/Parsers.cpp:39-44 | the nested block after a header line, followed by the `lineIndex--` |
| Parser.Parser.ParseFunctionHead | src/parser/Parsers.cpp:13-18 | `[` return type `]` name |
| Parser.Parser.ParseFunctionRest | src/parser/Parsers.cpp:20-55 | the parameter clause and the body one level deeper, as the specification's `FunctionRest` |
| Parser.Parser.ParseParameterClause | src/parser/Parsers.cpp:20-38 | `(` typed parameters `)` |
| Parser.Parser.ParseParameters | src/parser/Parsers.cpp:25-35 | the parameters of the do-while in order |
| Parser.Parser.ParseIf | src/parser/Parsers.cpp:58-89 | the `if` keyword, the condition and the indent level of its line, then the blocks; result, cursor and error are those of the specification's `If` |
| Parser.Parser.ParseIfBlocks | src/parser/Parsers.cpp:71-88 | moving to the next line, the then-block, the `else` test at index `expected - 2` and the step back to the previous line give what the specification's `IfBlocks` gives |
| Parser.Parser.ParseElseBranch | src/parser/Parsers.cpp:74-86 | the optional else block |
| Parser.Parser.ParseFor | src/parser/Parsers.cpp:91-122 | the header then the body |
| Parser.Parser.ParseForHead | src/parser/Parsers.cpp:98-111 | iteration variable, the `in` check and the iterable |
| Parser.Parser.ParseWhile | src/parser/Parsers.cpp:124-144 | condition and body |
| Parser.Parser.ParseStruct | src/parser/Parsers.cpp:318-344 | `[struct] Name` and its body |
| Parser.Parser.ParseDeclarationHead | src/parser/Parsers.cpp:328-333 | `[`, the keyword, `]`, the name |
| Parser.Parser.ParseReturn | src/parser/Parsers.cpp:174-184 | the keyword and an expression |
| Parser.Parser.ParseAssignment | src/parser/Parsers.cpp:191-288 | the `const`/`final` keyword when required, then the declaration |
| Parser.Parser.ParseDeclaration | src/parser/Parsers.cpp:218-288 | the four forms: built-in type, `^=`, reassignment, custom or generic type |
| Parser.Parser.ParseOptionalInitializer | src/parser/Parsers.cpp:269-287 | a NoneNode initializer without `=`, otherwise the expression after it |
| Parser.Parser.ParseClass | src/parser/Parsers.cpp:346-400 | `[class] Name` and one or two access sections |
| Parser.Parser.ParseClassBody | src/parser/Parsers.cpp:355-399 | the sections start on the next line one level deeper than that line, as the specification's `ClassBody` |
| Parser.Parser.ParseClassAt | src/parser/Parsers.cpp:362-399 | the sections and the step back a line, as the specification's `ClassAt` |
| Parser.Parser.ParseClassSections | src/parser/Parsers.cpp:362-397 | the required first section and the optional second, as public and private blocks |
| Parser.Parser.ParseOptionalSection | src/parser/Parsers.cpp:381-396 | the second section when its keyword is there |
| Parser.Parser.ParseAccessSection | src/parser/Parsers.cpp:366-375 | an access keyword, `:`, and the block below it |
| ParserSpec.Current | src/parser/Logic.cpp:24-33 | a real token only at a position inside the current line; the None token everywhere else |
| ParserSpec.Advance | src/parser/Logic.cpp:35-45 | returns the current token; on a token it moves one to the right on the same line, past the end it stays |
| ParserSpec.Match | src/parser/Logic.cpp:47-59 | succeeds exactly when `check` does, and then consumes one token; otherwise the cursor is unchanged |
| ParserSpec.Peek | src/parser/Logic.cpp:72-82 | a real token only when the next position on the same line holds it |
| ParserSpec.NextLine | src/parser/Logic.cpp:84-90 | moves to token 0 of the next line exactly when the file is not finished |
| ParserSpec.Consume | src/parser/Logic.cpp:119-127 | succeeds exactly when the current token has the kind, consuming one token on the same line; otherwise the given message |
| ParserSpec.IndentLevelIsLeadingPipes | src/parser/Logic.cpp:145-160 | the indent level is n exactly when the first n tokens are Pipes and the next one is not |
| ParserSpec.LastTokenInLine | src/parser/Logic.cpp:164-178 | the last token of an existing non-empty line, the None token otherwise |
| ParserSpec.Precedence | src/parser/Logic.cpp:223-233 | -1 for anything but an operator or keyword; 1 for `or`, 2 for `and`, 3 for the comparisons, 4 for `+ -`, 5 for `* / %`, and each exactly so |
| ParserSpec.DigitRun | src/parser/Logic.cpp:284 | the maximal run of digits from a position |
| ParserSpec.Stoi | src/parser/Logic.cpp:284 | `std::stoi`: a value within 32 bits, and `invalid_argument` exactly when no digit follows the whitespace and sign |
| ParserSpec.IntLiteralTypeName | src/parser/Logic.cpp:292-310 | 0 and 1 are i1 and every other integer literal i8: the `< 255 \|\| > -256` test is always true |
| ParserSpec.NumberLiteral | src/parser/Logic.cpp:269-316 | a literal with a dot is a float node when `stof` accepts its text and its value lies in the `float` range; text `stof` rejects gives "Invalid number format", a value out of range gives the uncaught `stof` range error; any other literal is an integer node typed by `IntLiteralTypeName` and fails exactly when `stoi` does |
| ParserSpec.StringLiteralText | src/parser/Logic.cpp:318-322 | the quotes are cut off: the text between the first and the last character |
| ParserSpec.FullType | src/parser/Logic.cpp:180-221 | a type starts with a Type or Identifier token and consumes at least one token of its line |
| ParserSpec.TypeParameters | src/parser/Logic.cpp:197-206 | the do-while reads at least one type parameter |
| ParserSpec.Primary | src/parser/Logic.cpp:266-443 | a primary expression never leaves its line nor moves back |
| ParserSpec.ArrayLiteral | src/parser/Logic.cpp:353-369 | an array literal is a NoneNode or a block |
| ParserSpec.MapLiteral | src/parser/Logic.cpp:370-397 | a map literal is a NoneNode or a block |
| ParserSpec.MapEntry | src/parser/Logic.cpp:377-392 | a map entry is a key-value node and consumes tokens |
| ParserSpec.AccessLinks | src/parser/Logic.cpp:496-518 | the member loop stops exactly where no `.`, `[` or (after a name) `(` follows |
| ParserSpec.Call | src/parser/Parsers.cpp:290-316 | a call starts at an identifier and is a call node named after it |
| ParserRules.IdentifierOperand | src/parser/Logic.cpp:435-438 | an identifier not followed by `(`, `[` or `.` is a plain identifier operand consuming one token |
| ParserRules.NameExpression | src/parser/Logic.cpp:235-252 | such an identifier followed by no operator is a whole expression |
| ParserRules.LoopStopsAtEndOfLine | src/parser/Logic.cpp:239-243 | at the end of a line the binary loop stops with the left operand (the None token has precedence -1) |
| ParserRules.ThreeOperands | src/parser/Logic.cpp:235-252 | `a o1 b o2 d` groups right when o1's precedence is at most o2's, left otherwise |
| ParserRules.GroupsRight | src/parser/Logic.cpp:245-246 | operators of equal or rising precedence group to the right (the recursive call uses the operator's own precedence) |
| ParserRules.GroupsLeft | src/parser/Logic.cpp:243 | a higher-precedence operator followed by a lower one groups to the left |
| ParserRules.SubtractionGroupsRight | src/parser/Logic.cpp:245-246 | `a - b - d` parses as `a - (b - d)` |
| ParserRules.ProductBindsTighter | src/parser/Logic.cpp:223-252 | `*` binds tighter than `+` on either side |
| ParserRules.AboveTopPrecedenceIsUnary | src/parser/Logic.cpp:237-243 | above precedence 5 a binary parse is a unary one |
| ParserRules.BooleanLiterals | src/parser/Logic.cpp:409-414 | `true` and `false` are the i1 numbers 1 and 0 |
| ParserRules.EmptyCollectionIsNone | src/parser/Logic.cpp:353-373 | `[]` and `{}` are NoneNodes and consume no token, not even the opening bracket |
| ParserRules.IntegerLiteralWidth | src/parser/Logic.cpp:292-311 | every integer literal other than 0 and 1 is typed i8, whatever its size |
| ParserRules.ArgumentListInOrder | src/parser/Logic.cpp:331-336 | the argument loop appends in source order |
| ParserRules.ParameterListInOrder | src/parser/Parsers.cpp:27-35 | the parameter loop appends in source order |
| ParserRules.BlockLoopInOrder | src/parser/Parsers.cpp:155-169 | the block loop appends statements in source order |
| ParserRules.GenericTypeClosing | src/parser/Logic.cpp:208-211 | the closing check of a generic type accepts any Operator token, not only `>`, and refuses everything else |
| ParserRules.DecimalPrefixOfLiteral | src/parser/Logic.cpp:275-278 | `stof` accepts a literal `d.e` of digits and reads the value of all its digits with as many after the point as `e` has digits |
| ParserRules.LargeFloatEscapes | src/parser/Logic.cpp:273-290 | a float literal with 40 or more integer digits, the first not 0, fails with the uncaught `stof` range error instead of "Invalid number format" |
| ParserRules.TinyFloatEscapes | src/parser/Logic.cpp:273-290 | a non-zero float literal with a zero integer part and at least 38 zeros after the point fails with the same uncaught range error |
| ParserRules.ModerateFloatAccepted | src/parser/Logic.cpp:273-315 | a float literal with 1 to 38 integer digits, the first not 0, is kept as a float node |
| ParserRules.FloatOverflowEscapes | src/parser/Logic.cpp:273-290 | the literal 1e40 written out in digits fails with the uncaught range error |
| ParserRules.FloatUnderflowEscapes | src/parser/Logic.cpp:273-290 | the literal `0.` followed by fifty zeros and a `1` fails with the uncaught range error |
| ParserRules.FloatInRange | src/parser/Logic.cpp:273-315 | the literal 3.14 is kept as a float node |
| StatementSpec.Block | src/parser/Parsers.cpp:146-172 | a block is a BlockNode and ends at the end of the file or at a line indented less than expected |
| StatementSpec.BlockLoop | src/parser/Parsers.cpp:155-169 | the block loop only moves forward and keeps every statement it has collected |
| StatementSpec.Statement | src/parser/Parser.cpp:37-189 | a statement never moves the cursor outside the token lines |
| StatementSpec.MemberStatement | src/parser/Parser.cpp:113-136 | a member statement stays on its line |
| StatementSpec.Function | src/parser/Parsers.cpp:6-56 | a function declaration is a FunctionNode |
| StatementSpec.FunctionHead | src/parser/Parsers.cpp:13-18 | the header consumes tokens of its line |
| StatementSpec.FunctionRest | src/parser/Parsers.cpp:20-55 | what follows a function's name yields a FunctionNode with that name and return type, ending within the lines |
| StatementSpec.ParameterList | src/parser/Parsers.cpp:27-35 | the do-while reads at least one parameter |
| StatementSpec.If | src/parser/Parsers.cpp:58-89 | an `if` statement is an IfNode |
| StatementSpec.IfBlocks | src/parser/Parsers.cpp:71-88 | the blocks of an `if` stay within the file and form an IfNode |
| StatementSpec.ElseBranch | src/parser/Parsers.cpp:74-86 | an else branch, when present, is a block |
| StatementSpec.For | src/parser/Parsers.cpp:91-122 | a `for` statement is a ForNode |
| StatementSpec.While | src/parser/Parsers.cpp:124-144 | a `while` statement is a WhileNode |
| StatementSpec.Struct | src/parser/Parsers.cpp:318-344 | a struct declaration is a StructNode |
| StatementSpec.Return | src/parser/Parsers.cpp:174-184 | a `return` is a ReturnNode and consumes tokens |
| StatementSpec.OptionalInitializer | src/parser/Parsers.cpp:269-287 | a declaration keeps the name, constness and type it was given; only the initializer varies |
| StatementSpec.ProgramLoop | src/parser/Parser.cpp:16-30 | the statement loop keeps every statement collected |
| StatementSpec.Program | src/parser/Parser.cpp:10-32 | a parsed program is a ProgramNode carrying the module name |
| StatementSpec.AccessSection | src/parser/Parsers.cpp:366-375 | an access section is a block below its keyword line |
| StatementSpec.Class | src/parser/Parsers.cpp:346-400 | a class declaration is a ClassNode and ends within the file |
| StatementSpec.ClassBody | src/parser/Parsers.cpp:355-399 | what follows a class header yields a ClassNode with that name, ending within the file |
| StatementSpec.ClassAt | src/parser/Parsers.cpp:362-399 | the sections yield a ClassNode with the given name, ending no earlier than the line they start on |
| StatementSpec.ClassSections | src/parser/Parsers.cpp:362-397 | a class has a public or a private body |
| StatementRules.BlockStopsAtShallowerLine | src/parser/Parsers.cpp:154-157 | a block met at the end of the file or at a line indented less than expected is empty and consumes nothing |
| StatementRules.BlockRejectsDeeperLine | src/parser/Parsers.cpp:158-159 | a line indented deeper than expected fails with "Unexpected indentation at line N at <token>" |
| StatementRules.TopLevelIfHasNoElse | src/parser/Parsers.cpp:74-86 | at indentation 0 the else check looks at token -1 of the next line, so a top-level `if` never gets an else block |
| StatementRules.NestedElseIsSeen | src/parser/Parsers.cpp:74-86 | one level deeper, a Pipe followed by `else` yields an else branch exactly when the block below it parses |
| StatementRules.TopLevelJumpIsRejected | src/parser/Parser.cpp:16-30 | a top-level `break` or `continue` does not advance the token, so the program loop fails with "Character(break) not parsed at the end of" |
| StatementRules.ProgramLoopInOrder | src/parser/Parser.cpp:16-30 | the program loop appends each statement after those already collected, in source order |
| StatementRules.ForInTest | src/parser/Parsers.cpp:100-109 | the `in` test passes exactly on a Keyword token (the `&&` lets any keyword through), followed by a parsable expression |
| StatementRules.DeclarationWithoutValue | src/parser/Parsers.cpp:218-229 | `T x` without `=` is a declaration with a NoneNode value that stops after the name |
| StatementRules.DynamicDeclarationIsAuto | src/parser/Parsers.cpp:231-242 | `x ^= e` declares x with type `auto` and the value of e, and succeeds exactly when e parses |
| StatementRules.PlainAssignmentReassigns | src/parser/Parsers.cpp:243-250 | `x = e` is a reassignment of x to e, and succeeds exactly when e parses |
| StatementRules.ConstAndFinalAreOneFlag | src/parser/Parsers.cpp:205-215 | a constant declaration starts with `const` or `final`, and both give the same constant flag |
| StatementRules.DeclarationKeepsFlag | src/parser/Parsers.cpp:225-287 | a declaration carries the constant flag it was given |
| StatementRules.MemberCallAlwaysFails | src/parser/Logic.cpp:500-514 | a `(` inside a member access calls the call parser on the `(` itself, which always fails with "Expected function name" |
| StatementRules.CallOfTwoNames | src/parser/Parsers.cpp:290-316 | `f(a, b)` is a call of f with arguments a and b that consumes all six tokens |
| StatementRules.TwoNameArguments | src/parser/Parsers.cpp:304-309 | the argument do-while reads `a, b` and stops at the `)` |
| ErrorEngine.Repeat | src/errors/ErrorEngine.cpp:92 | `std::string(n, c)`: exactly n copies of c |
| ErrorEngine.LeadingRun | src/errors/ErrorEngine.cpp:65-68 | the scan position only moves forward and stays within the line |
| ErrorEngine.LeadingRunSpec | src/errors/ErrorEngine.cpp:65-68 | the scan stops at the first character that is neither `\|` nor whitespace, and every character before it is one of those |
| ErrorEngine.RemoveLeadingPipesAndSpaces | src/errors/ErrorEngine.cpp:64-70 | the loop returns the stripped code and the count removed; the removed prefix followed by the code is the original line, the prefix holds only pipes and whitespace, and the code does not start with either |
| ErrorEngine.StrippingTwiceRemovesNothing | src/errors/ErrorEngine.cpp:64-70 | stripping an already stripped line removes nothing |
| ErrorEngine.Caret | src/errors/ErrorEngine.cpp:89-95 | an out-of-range pointer is a `^` at the original column, or empty for a negative column |
| ErrorEngine.WordStart | src/errors/ErrorEngine.cpp:98-101 | the left scan never moves right of the column |
| ErrorEngine.WordEnd | src/errors/ErrorEngine.cpp:104-107 | the right scan stays within the line and never moves left of the column |
| ErrorEngine.WordStartSpec | src/errors/ErrorEngine.cpp:98-101 | the word start is at the beginning of the line or just after whitespace, and there is no whitespace between it and the column |
| ErrorEngine.WordEndSpec | src/errors/ErrorEngine.cpp:104-107 | the word end is the last character or just before whitespace, with no whitespace between the column and it |
| ErrorEngine.PointerShape | src/errors/ErrorEngine.cpp:84-120 | an out-of-range column gives the caret; an in-range one gives spaces up to the word containing the column and `~` under exactly that word |
| ErrorEngine.HighlightNeverEmpty | src/errors/ErrorEngine.cpp:110-116 | the highlight length is always positive, so the guard for a non-positive length is dead code |
| ErrorEngine.GeneratePointer | src/errors/ErrorEngine.cpp:84-120 | the two scanning loops compute the pointer line that the specification function describes |
| ErrorEngine.Width5 | src/errors/ErrorEngine.cpp:76-78 | `setw(5)` right-aligns a short text in five columns and leaves a longer one as it is |
| ErrorEngine.ErrorEngine.constructor | src/errors/headers/ErrorEngine.h:44 | a new engine has no source lines and zero counters |
| ErrorEngine.ErrorEngine.Initialize | src/errors/headers/ErrorEngine.h:20-24 | the engine keeps the given source lines and resets both counters |
| ErrorEngine.ErrorEngine.InitializeWithoutSource | src/errors/headers/ErrorEngine.h:27-31 | the engine drops the source lines and resets both counters |
| ErrorEngine.ErrorEngine.SourceQuote | src/errors/ErrorEngine.cpp:52-82 | one notice line without source or for a line out of range, otherwise two lines: the right-aligned 1-based number and the line with its leading pipes and whitespace removed (the removed run plus the shown text is the original line, and the shown text starts with neither), then the pointer computed on the shown text |
| ErrorEngine.ErrorEngine.Diagnostic | src/errors/ErrorEngine.cpp:37-50 | the header first, then the quoted source exactly when the engine holds a non-empty source, then the hint line exactly when a hint is given |
| ErrorEngine.ErrorEngine.PrintSourceLine | src/errors/ErrorEngine.cpp:52-82 | writes exactly SourceQuote: without source the fixed notice; a line out of range the notice with the 1-based line number; otherwise the numbered stripped line and the pointer line below it |
| ErrorEngine.ErrorEngine.PrintError | src/errors/ErrorEngine.cpp:37-50 | writes exactly Diagnostic: the header line first, then printSourceLine's lines when there is a non-empty source, and the hint line last when a hint is given |
| ErrorEngine.ErrorEngine.Report | src/errors/ErrorEngine.cpp:15-21 | raises with exactly printError's lines (Diagnostic), and because printing throws, the error counter never changes |
| ErrorEngine.ErrorEngine.ReportWithHint | src/errors/ErrorEngine.cpp:23-28 | as `report`, with the hint as the last line of the Diagnostic; the counters never change |
| ErrorEngine.ErrorEngine.Warn | src/errors/ErrorEngine.cpp:30-33 | raises with the Diagnostic under the `Warn` header, before its counter is incremented |
| LoopStacks.PushIfPresent | src/runtime/headers/CodeGenContext.h:53-54 | a missing block leaves the stack as it is; a present one goes on top |
| LoopStacks.PopIfAny | src/runtime/headers/CodeGenContext.h:59-60 | popping an empty stack leaves it empty; otherwise exactly the top entry is removed |
| LoopStacks.Top | src/runtime/headers/CodeGenContext.h:63-73 | the current block is null exactly when the stack is empty, and is otherwise its last entry |
| LoopStacks.PushThenPop | src/runtime/headers/CodeGenContext.h:51-61 | pushing a block makes it current, and popping afterwards restores the stack |
| LoopStacks.PushNullThenPop | src/runtime/headers/CodeGenContext.h:51-61 | a loop context pushed with a null end block keeps the enclosing loop's end block current and moves the two stack heights one further apart; the pop that follows restores the condition stack but removes the enclosing loop's end block |
| LoopStacks.LoopStacks.constructor | src/runtime/headers/CodeGenContext.h:27-28 | both loop stacks start empty |
| LoopStacks.LoopStacks.PushLoopContext | src/runtime/headers/CodeGenContext.h:51-55 | each stack grows by its block when that block is present and is otherwise unchanged |
| LoopStacks.LoopStacks.PopLoopContext | src/runtime/headers/CodeGenContext.h:57-61 | each non-empty stack loses its top entry; an empty one stays empty |
| LoopStacks.LoopStacks.CurrentLoopEndBlock | src/runtime/headers/CodeGenContext.h:63-67 | the innermost `break` target, or null when no loop is open |
| LoopStacks.LoopStacks.CurrentLoopCondBlock | src/runtime/headers/CodeGenContext.h:69-73 | the innermost `continue` target, or null when no loop is open |
| CodeGenTypes.IntegerTypes | src/runtime/CodeGenContext.cpp:15-20 | a type lowers to an LLVM integer exactly when it is one of i1, i8, i16, i32, i64, each to the integer of its own width |
| CodeGenTypes.PointerAndScalarTypes | src/runtime/CodeGenContext.cpp:21-25 | string, null and auto, and only they, lower to `i8*`; only float to float; only void to void |
| CodeGenTypes.ArrayAndFallThrough | src/runtime/CodeGenContext.cpp:27-46 | only `array<T>` with one parameter lowers to a zero-length array of T's lowering; maps, bare `array`/`map` and unknown names fall through to the opaque pointer |
| CodeGenTypes.TypeByAstNode | src/runtime/CodeGenContext.cpp:49-66 | a type node is its own type; number, string, float and null literals get their literal types; any other node is an error |
| CodeGenTypes.NumberLiteralLowering | src/runtime/CodeGenContext.cpp:12-66 | a number literal typed with an integer name of width w lowers to the LLVM integer of width w |
| CodeGenTypes.GetOrDeclare | src/runtime/CodeGenContext.cpp:3-10 | the name is in the table afterwards and maps to the returned function; an existing entry is returned unchanged, a missing one is added with the requested type |
| CodeGenTypes.GetOrDeclareTwice | src/runtime/CodeGenContext.cpp:3-10 | asking again for a declared name changes nothing and returns the first declaration, whatever type is asked for |
| CodeGenTypes.LlvmModule.constructor | src/runtime/headers/CodeGenContext.h:23 | a new module declares no functions |
| CodeGenTypes.LlvmModule.GetOrDeclareFunction | src/runtime/CodeGenContext.cpp:3-10 | the module's function table and the returned function are those of get-or-declare on the old table |
| Cli.Normalise | src/CLI/cli.cpp:53-55 | the closing normalisation never changes the options |
| Cli.SetFlag | src/CLI/cli.cpp:27-44 | each simple flag sets its own option and leaves the others, the compile settings and the input file alone |
| Cli.ParseArgs | src/CLI/cli.cpp:19-58 | the argument loop returns what the recursive reading of the arguments from index 1 with the default options gives |
| Cli.NoArguments | src/CLI/cli.cpp:19-58 | with no arguments the defaults are returned |
| Cli.HelpExitsZero | src/CLI/cli.cpp:24-26 | `--help` ends the program with status 0 |
| Cli.UnknownOptionExitsOne | src/CLI/cli.cpp:47-49 | any other argument starting with `-` ends the program with status 1 and "Unknown option: " followed by the argument |
| Cli.CompileWithoutOutputExitsOne | src/CLI/cli.cpp:35-42 | `--compile` as the last argument ends the program with status 1 |
| Cli.CompileTakesNextVerbatim | src/CLI/cli.cpp:35-38 | `--compile` takes the next argument as the executable name even when it looks like an option |
| Cli.FlagsAreIndependent | src/CLI/cli.cpp:22-51 | over a run of simple flags, each option is set exactly when it was already set or its flag occurs; nothing else changes |
| Cli.LastInputWins | src/CLI/cli.cpp:45-46 | of several file names the last one is the input file |
| Register.FirstMatching | src/visitors/Register.cpp:36-47 | the first overload, from the given position on, whose parameter list renders to the argument types; none exactly when no remaining overload matches |
| Register.AddOverload | src/visitors/Register.cpp:8-10 | an overload is appended to its name's list, created empty when missing; other names keep their lists |
| Register.Registry.constructor | src/visitors/headers/Register.h:15-27 | a new registry has four empty tables |
| Register.Registry.AddBuiltinType | src/visitors/Register.cpp:4-6 | the type table maps the name to the given type and the other tables are unchanged |
| Register.Registry.AddBuiltinFunction | src/visitors/Register.cpp:8-10 | the function table gains the overload at the end of its name's list and the other tables are unchanged |
| Register.Registry.AddStruct | src/visitors/Register.cpp:12-14 | the struct table maps the name to the given struct and the other tables are unchanged |
| Register.Registry.AddClass | src/visitors/Register.cpp:15-17 | the class table maps the name to the given class and the other tables are unchanged |
| Register.Registry.FindType | src/visitors/Register.cpp:18-23 | a type is found exactly when its name is registered, and it is the registered one |
| Register.Registry.FindFunction | src/visitors/Register.cpp:25-30 | a function is found exactly when its name has a non-empty overload list, and it is the first overload |
| Register.Registry.FindFunctionFor | src/visitors/Register.cpp:32-48 | the nested loops return the first overload whose parameter types render like the argument types, or null; an unknown name gives null |
| Register.Registry.FindStruct | src/visitors/Register.cpp:50-55 | a struct is found exactly when its name is registered, and it is the registered one |
| Register.Registry.FindClass | src/visitors/Register.cpp:57-62 | a class is found exactly when its name is registered, and it is the registered one |
| Register.AddThenFindType | src/visitors/Register.cpp:4-6 | on a registry, `addBuiltinType(name, t)` followed by `findType(name)` gives `t`, replacing any earlier entry; `findType` and `findFunction` of every other name give what they gave before |
| Register.FirstOverloadStays | src/visitors/Register.cpp:8-10 | overloads keep their registration order |
| Register.RenderedTypesMustMatch | src/visitors/Register.cpp:40 | an `array<T>` argument never matches a parameter declared as plain `array`, because the renderings differ |
| BuiltIn.Params | src/visitors/BuiltIn.cpp:27-36 | the parameter list has one parameter per type name, in order, each of that simple type |
| BuiltIn.RegisterBuiltInFunctions | src/visitors/BuiltIn.cpp:3-143 | the seven built-in overloads are added in order to the function table; the other tables are unchanged |
| BuiltIn.RegisterBuiltInTypes | src/visitors/BuiltIn.cpp:145-179 | the twelve built-in type names are added to the type table; the other tables are unchanged |
| BuiltIn.AddFirstTypesSpec | src/visitors/BuiltIn.cpp:164-178 | after adding a prefix of the names, the table holds exactly the old names and that prefix; new names map to their simple type, the others keep their old type |
| BuiltIn.BuiltinTypesTable | src/visitors/BuiltIn.cpp:145-179 | from an empty registry the type table holds exactly the twelve names, each mapped to its own simple type; `bool` and `void` are not registered types |
| BuiltIn.Names | src/visitors/BuiltIn.cpp:21-141 | the names of a list of signatures, position by position |
| BuiltIn.AddFirstDistinct | src/visitors/BuiltIn.cpp:21-141 | adding signatures with distinct names gives each name a one-element overload list |
| BuiltIn.BuiltinFunctionsTable | src/visitors/BuiltIn.cpp:3-143 | from an empty registry the function table holds exactly echo, len, exit, assert, toString, toInt and toFloat, each with a single overload |
| BuiltIn.BuiltinNames | src/visitors/BuiltIn.cpp:21-141 | the built-ins are registered in the order echo, len, exit, assert, toString, toInt, toFloat, under distinct names |
| BuiltIn.SingleArgumentCallsDoNotResolve | src/visitors/BuiltIn.cpp:21-76 | echo, len and toString declare every accepted type as a separate parameter, so a one-argument call never resolves to them; `exit(i32)` does |
| Linker.ParamStrings | src/linker/Linker.cpp:47-49 | one (type string, name) pair per parameter, in order |
| Linker.File | src/linker/Linker.cpp:31-60 | filing one node touches only the three declaration tables |
| Linker.FileRecords | src/linker/Linker.cpp:33-60 | a variable, function or struct node is recorded under its name in its own table, replacing any earlier entry; every other entry is kept |
| Linker.FileFirst | src/linker/Linker.cpp:31-61 | filing a prefix of the body touches only the declaration tables |
| Linker.Collected | src/linker/Linker.cpp:27-64 | collection marks the module processed and changes neither its name, path, program nor imports; an already processed module is returned unchanged |
| Linker.LastDeclaration | src/linker/Linker.cpp:31-61 | the position of the last node among the first n that declares the name in the table, or none when no such node exists |
| Linker.FileFirstRecords | src/linker/Linker.cpp:31-61 | after filing, each name is recorded with the last node declaring it, and a name no node declares keeps its earlier entry |
| Linker.CollectedRecords | src/linker/Linker.cpp:27-64 | after collection a name is recorded exactly when it was before or some top-level node declares it, and the record is the last such node |
| Linker.FileFirstIgnoresImports | src/linker/Linker.cpp:31-61 | collecting declarations neither reads nor changes the imports |
| Linker.SymbolExists | src/linker/Linker.cpp:213-221 | true exactly when the module is known and declares the name as a function, a global or a struct |
| Linker.GetSymbolType | src/linker/Linker.cpp:223-239 | VARIABLE exactly for a global that is not also a function; STRUCT exactly for a struct that is neither; FUNCTION otherwise, including for an unknown module or name |
| Linker.Symbols | src/linker/Linker.cpp:108-135 | one symbol of the given kind and module per name, in order |
| Linker.AddImports | src/linker/Linker.cpp:102 | appending imports keeps the set of modules |
| Linker.AddImportsTwice | src/linker/Linker.cpp:102-134 | appending in two steps is appending the concatenation |
| Linker.ImportPath | src/linker/Linker.cpp:71-137 | importing one path keeps the set of modules |
| Linker.ImportPaths | src/linker/Linker.cpp:71-137 | importing the paths of one node keeps the set of modules |
| Linker.ImportsFrom | src/linker/Linker.cpp:69-139 | processing the import nodes of a body keeps the set of modules |
| Linker.ProcessImportsOf | src/linker/Linker.cpp:66-142 | processing imports keeps the set of modules |
| Linker.ImportPathSpec | src/linker/Linker.cpp:71-137 | a path succeeds exactly when it is empty or names a known module and, if it names a symbol, one that module declares; no declarations change |
| Linker.ImportPathsSpec | src/linker/Linker.cpp:71-137 | the paths of one import node all succeed exactly when each one would on its own |
| Linker.ImportsFromSpec | src/linker/Linker.cpp:69-139 | the import nodes of a body succeed exactly when every path of every one of them would |
| Linker.ProcessImportsSucceedsIff | src/linker/Linker.cpp:66-142 | `processImports` returns true exactly when every import path of the module names a known module and, where it names a symbol, a declared one; declarations never change |
| Linker.WholeModuleImportCount | src/linker/Linker.cpp:105-136 | a whole-module import (also of the module itself) appends one symbol per function, global and struct of the collected target after the existing imports, all naming the target, with every function, every global and every struct among them |
| Linker.WholeModuleShape | src/linker/Linker.cpp:105-135 | the symbols of a whole-module import: exactly one per function, global and struct of the target, all naming the target, with every function, every global and every struct among them |
| Linker.ValidateFrom | src/linker/Linker.cpp:241-248 | validation keeps the set of modules |
| Linker.FirstPass | src/linker/Linker.cpp:286-289 | the first pass keeps the set of modules |
| Linker.FirstPassStable | src/linker/Linker.cpp:286-289 | the first pass changes no module's declarations, whether or not its imports fail |
| Linker.ValidateFromSpec | src/linker/Linker.cpp:241-248 | validation succeeds exactly when every module's imports would, and changes no declarations |
| Linker.Link | src/linker/Linker.cpp:284-297 | linking keeps the set of modules |
| Linker.LinkSucceedsIff | src/linker/Linker.cpp:284-297 | linking succeeds exactly when every import of every module names a known module and, where it names a symbol, one that module declares; the failures of the first pass are ignored |
| Linker.LinkAlone | src/linker/Linker.cpp:284-297 | a single module links exactly when its own imports succeed |
| Linker.LinkKeepsDeclarations | src/linker/Linker.cpp:284-297 | linking, whether it succeeds or not, changes no module's declarations |
| Linker.SymbolImport | src/linker/Linker.cpp:87-103 | importing one existing symbol collects the target and appends exactly that symbol, with the kind `getSymbolType` gives |
| Linker.ImportedTwice | src/linker/Linker.cpp:284-297 | imports are not deduplicated: processing a module twice, as linking does, records the symbol twice |
| Linker.Linker.constructor | src/linker/Linker.cpp:8 | a new linker keeps its standard-library path and has no modules |
| Linker.Linker.AddModule | src/linker/Linker.cpp:10-25 | adding fails and changes nothing when the name is taken; otherwise it registers a fresh, unprocessed module with empty tables |
| Linker.Linker.CollectModuleInfo | src/linker/Linker.cpp:27-64 | the loop over the body leaves the module as the collection function describes and the other modules unchanged |
| Linker.Linker.AppendSymbols | src/linker/Linker.cpp:108-135 | each name is appended, in order, as a symbol of the given kind from the target module |
| Linker.Linker.ProcessImports | src/linker/Linker.cpp:66-142 | the loops return and leave what the import-processing function describes |
| Linker.Linker.ImportOnePath | src/linker/Linker.cpp:71-137 | the body of the path loop returns and leaves what the one-path function describes |
| Linker.Linker.ValidateImports | src/linker/Linker.cpp:241-248 | the loop over the modules in iteration order computes the validation function |
| Linker.Linker.ValidateStep | src/linker/Linker.cpp:243-245 | one round processes one module's imports: a failure ends the walk with the validation function's result, a success leaves the rest of the walk to compute it |
| Linker.Linker.LinkModules | src/linker/Linker.cpp:284-297 | the two loops compute the linking function |
| Linker.Linker.GetLinkedASTs | src/linker/Linker.cpp:299-305 | one program per module, in iteration order |
| Ast.TypeStrings | src/parser/headers/AST.h:103-111 | the rendering of each type parameter, in order |
| Ast.ParamsToStringIsJoin | src/parser/headers/AST.h:105-109 | the parameter loop writes the parameter renderings joined by ", " |
| Ast.TypeToStringShape | src/parser/headers/AST.h:87-111 | a simple type renders as its name; a generic type as its base name, `<`, its parameters joined by ", ", and `>` |
| Ast.GenericExamples | src/parser/headers/AST.h:103-111 | a generic type without parameters renders as `base<>`; with one parameter as `base<T>` |
| AstTools.TokenizeSource | src/CLI/ast_tools.cpp:10-21 | the token lines are those the lexer produces for the source |
| AstTools.FileName | src/CLI/ast_tools.cpp:36 | the file name is the part of the path after its last `/` |
| AstTools.LastDot | src/CLI/ast_tools.cpp:36 | the position of the last `.` of a name, or none when it has none |
| AstTools.StemShape | src/CLI/ast_tools.cpp:36 | the stem is a prefix of the file name without `/`; when it is shorter than the name it is non-empty and is followed by the name's last `.` |
| AstTools.FileNameOfName | src/CLI/ast_tools.cpp:36 | a name without `/` is its own file name |
| AstTools.NonImports | src/CLI/ast_tools.cpp:62-71 | filtering never lengthens the statement list |
| AstTools.NonImportsSpec | src/CLI/ast_tools.cpp:62-71 | the kept statements are exactly the non-import statements |
| AstTools.MarkedShape | src/CLI/ast_tools.cpp:62-71 | every kept statement is preceded by a module mark with the module's path, and nothing else is added |
| AstTools.MarkedHasNoImports | src/CLI/ast_tools.cpp:62-71 | the marked statements contain no import, and every even position holds a module mark |
| AstTools.CombinedHasNoImports | src/CLI/ast_tools.cpp:53-73 | the combined program of any number of modules has no imports and alternates module marks with statements |
| AstTools.SourceLines | src/CLI/ast_tools.cpp:87-94 | one rebuilt source line per token line |
| AstTools.SourceLineAppend | src/CLI/ast_tools.cpp:89-92 | rebuilding a line distributes over concatenating its tokens |
| AstTools.SourceLineOfOne | src/CLI/ast_tools.cpp:91 | each token contributes its text followed by one space |
| AstTools.Linked | src/CLI/ast_tools.cpp:33-42 | linking the main program alone leaves exactly one module |
| AstTools.SingleModuleCombine | src/CLI/ast_tools.cpp:28-73 | combining succeeds exactly when every import of the main program resolves; it then yields the program's non-import statements with their marks, and otherwise the linking error |
| AstTools.SingleModuleLinked | src/CLI/ast_tools.cpp:33-42 | linking the main module succeeds exactly when its imports resolve |
| AstTools.SingleModuleKept | src/CLI/ast_tools.cpp:33-42 | linking keeps the main module's path and program |
| AstTools.LinkAndCombine | src/CLI/ast_tools.cpp:33-73 | the linker calls and the copy loop give the combined program the combining function describes |
| AstTools.MarkStatements | src/CLI/ast_tools.cpp:62-71 | the copy loop yields the marked statements |
| AstTools.RebuildSource | src/CLI/ast_tools.cpp:87-94 | the nested loops yield the rebuilt source lines |
| AstTools.ParseAndLinkModules | src/CLI/ast_tools.cpp:23-110 | the result is the parse-and-link function's; on success the error engine holds the rebuilt source with zero counters, and on failure it is untouched |
| TypeRules.RankedNames | src/visitors/TypeSymbolVisitor/Utils.cpp:134-140 | the integer promotion ranks only i1, i8, i32 and i64 (i16 gets rank 0); the collection ranks add float |
| TypeRules.TargetRoundTrip | src/visitors/TypeSymbolVisitor/Utils.cpp:181-186 | the collection rank table and the rank-to-target table of the implicit collection cast are inverse; other ranks have no target |
| TypeRules.RankInjective | src/visitors/TypeSymbolVisitor/Utils.cpp:142-147 | different ranked names have different ranks, so promotion always picks one side |
| TypeRules.LimitsNested | src/visitors/TypeSymbolVisitor/Utils.cpp:311-317 | the literal ranges grow with the rank: a value fitting a lower-ranked type fits every higher-ranked one |
| TypeRules.LimitsAreNarrow | src/visitors/TypeSymbolVisitor/Utils.cpp:311-317 | the limit for i32 is the 16-bit range and for i64 the 32-bit range, i1 takes only 0 and 1, and float and other names take every value |
| TypeRules.CmpOpTable | src/visitors/TypeSymbolVisitor/Operators.cpp:318-327 | exactly the six comparison operators and the `eq`/`ne` spellings have a comparison suffix, each its own |
| TypeRules.PlusCastSkipsI1 | src/visitors/TypeSymbolVisitor/Expressions.cpp:17-65 | `i1 + i1` is an integer add, but an i1 beside a float is not cast to float (the cast list names `bool` instead) |
| Scopes.SetTop | src/visitors/TypeSymbolVisitor/Statements.cpp:172 | replacing the innermost scope keeps the number of scopes, the outer scopes and the structs |
| Scopes.VisitTypeOkIff | src/visitors/TypeSymbolVisitor/Types.cpp:3-27 | a type visit succeeds exactly when every name the type mentions, base names and parameters alike, is a registered type |
| Scopes.VisitParamsOkIff | src/visitors/TypeSymbolVisitor/Types.cpp:22-24 | the parameter loop succeeds exactly when every remaining parameter is known |
| Scopes.CheckForIdentifierSpec | src/visitors/TypeSymbolVisitor/Utils.cpp:8-39 | an identifier missing from the innermost scope is "Variable not found"; a declared one gives its initializer's inferred type, or its own type when it has no initializer |
| Scopes.NumCastSpec | src/visitors/TypeSymbolVisitor/Utils.cpp:89-160 | equal type names change nothing; different names succeed exactly for two ranked integers under a promoting operator, then both sides take the higher-ranked name and only the lower side gets an implicit cast |
| Scopes.NumCastSymmetric | src/visitors/TypeSymbolVisitor/Utils.cpp:89-160 | swapping the operands swaps the results and does not change whether promotion succeeds |
| ExprCheck.WeightFromBound | src/visitors/TypeSymbolVisitor/Utils.cpp:162-256 | each statement of a collection literal weighs no more than the rest of the block it is in, so the collection checks terminate |
| ExprCheck.WeightFromPointwise | src/visitors/TypeSymbolVisitor/Utils.cpp:162-256 | blocks whose statements weigh the same, position by position, weigh the same |
| ExprCheck.VisitExpr | src/visitors/TypeSymbolVisitor/Types.cpp:29-72 | a successful visit keeps the node's nesting: blocks stay blocks, key-value pairs stay pairs, and the weight is unchanged |
| ExprCheck.VisitEach | src/visitors/TypeSymbolVisitor/Statements.cpp:98-103 | visiting a block's statements yields one node per statement, each of the same weight |
| ExprCheck.IdentifierTypes | src/visitors/TypeSymbolVisitor/Types.cpp:29-40 | an identifier declared i64 with an i8 initializer is typed i64 by its own visit, while the operand lookup answers i8 |
| ExprCheck.IdentifierVisit | src/visitors/TypeSymbolVisitor/Types.cpp:29-40 | an unknown identifier fails with "Variable not found" and only then; a known one gets the type it was declared with and keeps its kind and cast |
| ExprCheck.LiteralTypes | src/visitors/TypeSymbolVisitor/Types.cpp:42-65 | a number takes the registry entry for its own type name (none when missing); float, string, null and none literals take those types |
| ExprCheck.OtherOperatorsUntyped | src/visitors/TypeSymbolVisitor/Expressions.cpp:3-79 | an operator other than `+` keeps its operator and gets no new type or cast |
| ExprCheck.PlusSameType | src/visitors/TypeSymbolVisitor/Expressions.cpp:16-30 | equal non-string types: i1, i8, i32 and i64 give `add`, float gives `fadd`, both typed like the operands; any other shared type fails with "Unsupported operand types for '+'" |
| ExprCheck.PlusString | src/visitors/TypeSymbolVisitor/Expressions.cpp:34-47 | a string on either side gives `strcat` typed string, with exactly the non-string sides wrapped in `toString` |
| ExprCheck.PlusFloat | src/visitors/TypeSymbolVisitor/Expressions.cpp:50-69 | float beside an integer gives `fadd` typed float, casting the integer side to float unless it is i1 |
| ExprCheck.PlusPromotes | src/visitors/TypeSymbolVisitor/Expressions.cpp:71-74 | two different ranked integers keep `+` and take the promoted type of the pair |
| Collections.SetParam | src/visitors/TypeSymbolVisitor/Utils.cpp:293 | replacing type parameter i keeps the base name and every other parameter |
| Collections.SetStatement | src/visitors/TypeSymbolVisitor/Utils.cpp:334 | replacing statement i of a literal keeps every other statement, the annotations and the weight |
| Collections.CheckPart | src/visitors/TypeSymbolVisitor/Utils.cpp:194-208 | checking one element, key or value keeps its nesting weight |
| Collections.Validate | src/visitors/TypeSymbolVisitor/Utils.cpp:162-256 | a successful collection check keeps the literal's nesting weight |
| Collections.Finish | src/visitors/TypeSymbolVisitor/Utils.cpp:253-255 | the closing cast keeps the literal's nesting weight |
| Collections.ValidateArray | src/visitors/TypeSymbolVisitor/Utils.cpp:190-210 | the array loop yields a block of the same weight |
| Collections.ValidateMap | src/visitors/TypeSymbolVisitor/Utils.cpp:211-248 | the map loop yields a block of the same weight |
| Collections.ValidateEntry | src/visitors/TypeSymbolVisitor/Utils.cpp:214-238 | checking one key-value pair keeps its key name and nesting weight and leaves the type generic |
| Collections.CastTo | src/visitors/TypeSymbolVisitor/Utils.cpp:333-335 | casting a literal keeps its kind and inferred type |
| Collections.Apply | src/visitors/TypeSymbolVisitor/Utils.cpp:258-377 | the implicit numeric cast keeps the literal's weight and whether it is a block, leaves a type that is not generic as it is and a generic one generic |
| Collections.RewriteParams | src/visitors/TypeSymbolVisitor/Utils.cpp:280-300 | rewriting the parameters of an `auto` collection type keeps its base name and number of parameters |
| Collections.CastArray | src/visitors/TypeSymbolVisitor/Utils.cpp:319-337 | the array cast loop yields a block of the same weight and a generic type |
| Collections.CastElement | src/visitors/TypeSymbolVisitor/Utils.cpp:322-336 | a number element succeeds exactly when the type is `auto` or the value fits the target, and is then cast to the target with the type unchanged; an element that is neither a number nor a block is left as it is |
| Collections.CastLiteral | src/visitors/TypeSymbolVisitor/Utils.cpp:343-355 | a numeric key or value passes exactly when the type is `auto` or its value fits its target, and is then cast to that target |
| Collections.CastMap | src/visitors/TypeSymbolVisitor/Utils.cpp:338-376 | the map cast loop yields a block of the same weight and a generic type |
| Collections.CastEntry | src/visitors/TypeSymbolVisitor/Utils.cpp:341-375 | casting one key-value pair keeps its key name and weight; a numeric key or value that does not fit its target (unless `auto`) is an error, and on success it is cast to its target; other keys and plain values stay; the key and value targets are kept for the next entries |
| Collections.CheckPartRule | src/visitors/TypeSymbolVisitor/Utils.cpp:199-208 | a part with a simple expected type passes exactly when its type equals the expected type or both are numeric; a numeric mismatch raises the running rank to the larger of the two; a failure is "<what> type mismatch: expected X, got Y" |
| Collections.StringInIntArray | src/visitors/TypeSymbolVisitor/Utils.cpp:203-207 | a string element in an i32 array fails with "Element type mismatch: expected i32, got string" |
| Collections.ValidateMapEntries | src/visitors/TypeSymbolVisitor/Utils.cpp:211-248 | a map literal passes only when every entry is a key-value pair and no key name repeats or was seen before |
| Collections.CastArrayNumbers | src/visitors/TypeSymbolVisitor/Utils.cpp:319-337 | the array cast keeps the element count, casts every number element to the target and, unless the type is `auto`, only succeeds when each number fits the target |
| Collections.CastMapEntries | src/visitors/TypeSymbolVisitor/Utils.cpp:338-376 | the map cast keeps the entry count, leaves entries that are not key-value pairs alone and keeps key-value pairs as pairs |
| Collections.CastMapNumbers | src/visitors/TypeSymbolVisitor/Utils.cpp:338-376 | the map cast casts every numeric key to the key target and every numeric value to the value target and, unless the type is `auto`, only succeeds when each fits its target |
| Collections.RewriteSimpleParams | src/visitors/TypeSymbolVisitor/Utils.cpp:280-300 | for simple parameters, every numeric parameter becomes the target type of the rank and the others stay; the literal is untouched |
| Operators.UsedType | src/visitors/TypeSymbolVisitor/Operators.cpp:5-10 | the type a value is used at: its implicit cast when it has one, otherwise its inferred type |
| Operators.ToStringHandlerSpec | src/visitors/TypeSymbolVisitor/Operators.cpp:3-77 | a visit error propagates; a node other than a number, float, binary, unary or call node (an identifier or a string, for instance) comes back as visited; one without a type crashes; otherwise it becomes a one-argument call of the conversion for its kind and type, a number argument re-typed with its inferred type |
| Operators.ArithSpec | src/visitors/TypeSymbolVisitor/Operators.cpp:134-307 | `-`, `*`, `/` and `%` succeed exactly when the operand types are accepted (strict mode refusing implicit casts), give the float instruction when either side is float and the integer one otherwise, keep the operands, and type the result by the operand names |
| Operators.ArithRefusesStrings | src/visitors/TypeSymbolVisitor/Operators.cpp:144-147 | a string operand of `-`, `*`, `/` or `%` fails with "Unsupported operand types" naming the operator |
| Operators.ArithReportsPlus | src/visitors/TypeSymbolVisitor/Operators.cpp:177 | the closing error of `-` and `*` names `+` (copied from the plus handler), while `/` names itself |
| Operators.StrictAcceptsUncast | src/visitors/TypeSymbolVisitor/Operators.cpp:104-120 | in strict mode `i32 + float` is still accepted when neither operand already carries a cast, and the integer side is cast to float |
| Operators.StrictRefusesCast | src/visitors/TypeSymbolVisitor/Operators.cpp:106-111 | in strict mode an operand that already carries a cast makes `+` fail with "Implicit type casting is not allowed for '+' in @strict mode" |
| Operators.PlusStrings | src/visitors/TypeSymbolVisitor/Operators.cpp:88-102 | a string operand gives `scat` typed string with the non-string side converted; strict mode refuses mixed operands; two strings always succeed outside strict mode |
| Operators.PlusLikeMinus | src/visitors/TypeSymbolVisitor/Operators.cpp:79-178 | without strings, `+` succeeds exactly when `-` would, with the same operands and type, and `add`/`fadd` where `-` gives `sub`/`fsub` |
| Operators.CompareSpec | src/visitors/TypeSymbolVisitor/Operators.cpp:309-373 | an unknown comparison fails with "Unknown comparison operator"; a success is typed i1 and uses `strcmp_`, `fcmp_` or `icmp_` with the operator's suffix depending on the operand types |
| Operators.CompareAccepts | src/visitors/TypeSymbolVisitor/Operators.cpp:346-372 | without strings, a comparison succeeds exactly when the arithmetic handlers would accept its operands |
| Operators.CompareStrings | src/visitors/TypeSymbolVisitor/Operators.cpp:333-346 | comparing a non-string with a string wraps the non-string in `toString_int`, whatever its type |
| Operators.LogicalIff | src/visitors/TypeSymbolVisitor/Operators.cpp:375-397 | a logical operator succeeds exactly for `and`/`or` over two i1 operands, and is then typed and cast i1 |
| StmtCheck.ExtendsTrans | src/visitors/TypeSymbolVisitor/Statements.cpp:98-103 | growing the scopes is transitive, so a block of statements grows them as each statement does |
| StmtCheck.WithBody | src/visitors/TypeSymbolVisitor/Statements.cpp:3-8 | a program or block with its statements replaced keeps its annotations |
| StmtCheck.VisitStmt | src/visitors/TypeSymbolVisitor/Statements.cpp:3-304 | a successful statement visit keeps the number of scopes, only adds variables and functions to them, keeps the function and return type of each, never forgets a return, and never forgets a struct |
| StmtCheck.VisitBody | src/visitors/TypeSymbolVisitor/Statements.cpp:98-103 | visiting the statements in order yields one node per statement and only grows the scopes |
| StmtCheck.Pop | src/visitors/TypeSymbolVisitor/Statements.cpp:93 | dropping the innermost scope keeps the structs |
| StmtCheck.Push | src/visitors/TypeSymbolVisitor/Statements.cpp:84 | a pushed scope becomes the innermost one, and popping it restores the state |
| StmtCheck.VisitFunction | src/visitors/TypeSymbolVisitor/Statements.cpp:10-96 | a successful function declaration only grows the scopes |
| StmtCheck.EnterFunction | src/visitors/TypeSymbolVisitor/Statements.cpp:78-95 | registering and checking the body only grows the scopes (the missing-return rule is StmtCheck.MissingReturnRule) |
| StmtCheck.RegisterExtends | src/visitors/TypeSymbolVisitor/Statements.cpp:78-81 | registering a function in the innermost scope only grows the scopes |
| StmtCheck.PopExtends | src/visitors/TypeSymbolVisitor/Statements.cpp:84-93 | what the body does to the outer scopes survives dropping the function scope |
| StmtCheck.VisitStruct | src/visitors/TypeSymbolVisitor/StructClass.cpp:3-34 | a successful struct declaration only grows the scopes and the registered structs |
| StmtCheck.AutoCollectionType | src/visitors/TypeSymbolVisitor/Statements.cpp:142-171 | an `auto` collection literal needs at least one entry; its first entry is visited and, for a key-value entry, gives `map<K, V>` from the visited key and value types, otherwise `array<T>` from the visited element type; that entry is replaced by its visited form and the rest are kept |
| StmtCheck.VisitAssign | src/visitors/TypeSymbolVisitor/Statements.cpp:119-216 | a successful declaration only grows the scopes (its rules are StmtCheck.AssignDeclares, AutoCollectionDeclares, StringInitializerRefused and I1DeclarationIff) |
| StmtCheck.VisitReturn | src/visitors/TypeSymbolVisitor/Statements.cpp:218-237 | a successful `return` only grows the scopes |
| StmtCheck.VisitReassign | src/visitors/TypeSymbolVisitor/Statements.cpp:239-304 | a successful reassignment only grows the scopes (its rules are StmtCheck.ReassignSpec and ReassignMismatch) |
| StmtCheck.CheckParamsOkIff | src/visitors/TypeSymbolVisitor/Statements.cpp:44-54 | the parameter loop succeeds exactly when every parameter type is known and no parameter name is a variable of the enclosing scope |
| StmtCheck.CheckParamsKeys | src/visitors/TypeSymbolVisitor/Statements.cpp:44-54 | the parameter map holds exactly the parameter names |
| StmtCheck.CheckParamsLastWins | src/visitors/TypeSymbolVisitor/Statements.cpp:53 | a repeated parameter name maps to the type of its last occurrence |
| StmtCheck.CheckParamsKeepsUnnamed | src/visitors/TypeSymbolVisitor/Statements.cpp:53 | a name no remaining parameter has keeps its entry |
| StmtCheck.FunctionGuards | src/visitors/TypeSymbolVisitor/Statements.cpp:13-54 | a declared function's name was new to the innermost scope, a method's struct is registered and the declaration is global, and every parameter type is known and shadows no variable |
| StmtCheck.FunctionDeclared | src/visitors/TypeSymbolVisitor/Statements.cpp:78-95 | a declared function is registered in the scope it was declared in and typed by its return type |
| StmtCheck.EnterFunctionRegisters | src/visitors/TypeSymbolVisitor/Statements.cpp:78-95 | the registration survives checking the body and dropping the function scope |
| StmtCheck.MissingReturnRule | src/visitors/TypeSymbolVisitor/Statements.cpp:86-95 | for any function: an error in its body is the declaration's error; once the body checks, the declaration succeeds exactly when a `return` was seen or the return type is void, and otherwise fails with "Function f must return a value of type T" |
| StmtCheck.EmptyBodyNeedsVoid | src/visitors/TypeSymbolVisitor/Statements.cpp:89-91 | an instance of the missing-return rule: a function with an empty body is refused with "Function f must return a value of type T" unless it returns void, and is otherwise just registered |
| StmtCheck.ReturnOutsideFunction | src/visitors/TypeSymbolVisitor/Statements.cpp:221-223 | a `return` in the global scope fails with "Return statement outside of function" |
| StmtCheck.ReturnSpec | src/visitors/TypeSymbolVisitor/Statements.cpp:218-237 | inside a function a `return` propagates its expression's error, succeeds exactly when the type matches the return type or is null in a void function, and then only marks the scope as returned |
| StmtCheck.ReturnLiteralWidth | src/visitors/TypeSymbolVisitor/Statements.cpp:228-232 | `return 5` from an i32 function fails, because the literal is typed i8 |
| StmtCheck.ReassignIgnoresConst | src/visitors/TypeSymbolVisitor/Statements.cpp:239-304 | a constant string variable can be reassigned a string, and stays constant |
| StmtCheck.ReassignSpec | src/visitors/TypeSymbolVisitor/Statements.cpp:239-304 | a reassignment needs the variable in the innermost scope, keeps its name and constness, stores the new value as its initializer, changes no other variable or scope, and the value's type string (the literal's `array<T>`/`map<K, V>` for a collection, the checked scalar type otherwise) equals the variable's |
| StmtCheck.ReassignMismatch | src/visitors/TypeSymbolVisitor/Statements.cpp:280-301 | reassigning a scalar variable a value whose checked type string differs from the variable's fails, with "Type mismatch: expected T, got U" unless a logical or comparison value was refused earlier |
| StmtCheck.AssignDeclares | src/visitors/TypeSymbolVisitor/Statements.cpp:119-216 | a declaration needs a new name and a known type other than none, null and void, adds exactly that variable with its checked type and initializer, and an i1 variable's initializer is typed i1 by `getType` |
| StmtCheck.AutoCollectionDeclares | src/visitors/TypeSymbolVisitor/Statements.cpp:142-177 | an `auto` declaration with a collection literal succeeds only when the first-entry typing succeeds, and the variable gets the type and literal that validating the typed literal as `auto` gives |
| StmtCheck.StringInitializerRefused | src/visitors/TypeSymbolVisitor/Statements.cpp:196-200 | a new variable of a known scalar type other than string and auto, initialised by a value that visits to string, fails with "Type mismatch: expected T, got string" |
| StmtCheck.I1DeclarationIff | src/visitors/TypeSymbolVisitor/Statements.cpp:201-209 | an i1 declaration whose initializer visits to a non-string type succeeds exactly when `getType` types the initializer i1 |
| StmtCheck.ScalarDeclarationUnchecked | src/visitors/TypeSymbolVisitor/Statements.cpp:178-209 | `x: i32 = 2.5` is accepted and x keeps type i32: scalar initializers are not compared with the declared type |
| StmtCheck.ComparisonInitializerUndefined | src/visitors/TypeSymbolVisitor/Statements.cpp:180-181 | `b: i1 = 1 < 2` reads the type of an untyped comparison, a null dereference |
| StmtCheck.GetTypeOfComparisons | src/visitors/TypeSymbolVisitor/Statements.cpp:105-117 | `icmp_` and `fcmp_` operators are typed i1, but a `strcmp_` one keeps the type it is given |
| StmtCheck.StructDeclared | src/visitors/TypeSymbolVisitor/StructClass.cpp:3-34 | a duplicate struct fails with "Struct already defined"; a new one is registered under its name with its visited body |
| Checker.TypeSymbolVisitor.constructor | src/visitors/headers/TypeSymbolVisitor.h:102-118 | one empty global scope, and a fresh registry holding exactly the built-in types and functions |
| Checker.TypeSymbolVisitor.Visit | src/visitors/TypeSymbolVisitor/Statements.cpp:3-304 | dispatching on the node kind succeeds exactly when the statement visit function does, leaving its scopes, structs and node; only the user structs of the registry may change |
| Checker.TypeSymbolVisitor.VisitLeaf | src/visitors/TypeSymbolVisitor/Statements.cpp:119-304 | a node without statements is visited as the statement visit function says, and the registry is not changed |
| Checker.TypeSymbolVisitor.VisitSequence | src/visitors/TypeSymbolVisitor/Statements.cpp:3-8 | the loop over a program's or block's statements, in order and stopping at the first error, computes the body visit function |
| Checker.TypeSymbolVisitor.VisitFunctionNode | src/visitors/TypeSymbolVisitor/Statements.cpp:10-96 | the checks, parameter loop, registration and body visit leave the state the function-declaration function describes |
| Checker.TypeSymbolVisitor.EnterFunctionNode | src/visitors/TypeSymbolVisitor/Statements.cpp:56-95 | pushing the function scope, visiting the body, the missing-`return` check and popping the scope compute the function-entry function |
| Checker.TypeSymbolVisitor.VisitStructNode | src/visitors/TypeSymbolVisitor/StructClass.cpp:3-34 | the struct scope, the body loop and the registration compute the struct visit function |
| Checker.TypeSymbolVisitor.VisitAssignNode | src/visitors/TypeSymbolVisitor/Statements.cpp:119-216 | the declaration updates the innermost scope as the declaration function describes and leaves the registry alone |
| Checker.TypeSymbolVisitor.VisitReturnNode | src/visitors/TypeSymbolVisitor/Statements.cpp:218-237 | the `return` updates the innermost scope as the return function describes and leaves the registry alone |
| Checker.TypeSymbolVisitor.VisitReassignNode | src/visitors/TypeSymbolVisitor/Statements.cpp:239-304 | the reassignment updates the innermost scope as the reassignment function describes and leaves the registry alone |
| Checker.CheckParameters | src/visitors/TypeSymbolVisitor/Statements.cpp:44-54 | the parameter loop computes the parameter-check function |
| Checker.GlueNothing | src/visitors/TypeSymbolVisitor/Statements.cpp:98-103 | a loop that has finished nothing reports the rest unchanged |
| Checker.GlueTwice | src/visitors/TypeSymbolVisitor/Statements.cpp:98-103 | finishing two stretches of statements one after the other is finishing their concatenation |

## Left out

- LLVM lowering (`ASTGen.cpp`, the `codegen/` files) and the TOML standard-library description are not part of this model. LLVM types are an abstract datatype `LlvmType`, and an LLVM function is a record with a name and a type.
- JIT execution, compiling to an executable, the module loader and `Linker::loadModule` read files or run external tools, so they are left out. An import of a module that was not added fails to load.
- Console output is left out: `printHelp`, `readSourceCode`, `Lexer::getTokens` printing, `debugModules`, `debugContexts` and the AST debugger. `--help` is modelled only as exiting with status 0.
- The decoration `throwError` adds to a message (colours, source line, pointer) is not modelled. `ErrorEngine` returns its streams as sequences of strings.
- `ErrorEngine.ErrorEngine.Report`, `ReportWithHint` and `Warn` always raise, as `printError` does, so their counter increments are unreachable. `getErrorCount` and `getWarningCount` are plain getters of those counters and have no model of their own.
- `split` uses `std::regex`. It is modelled as a plain split on "\n", so the invalid-pattern case (an empty result) is left out.
- Floating-point values are opaque strings; no float arithmetic is modelled beyond the range check of `stof`.
- ParserSpec.NumberLiteral: the `stof` range check is judged on the exact decimal value against 2^128 - 2^103 and 2^-126; the model does not follow the C library's own rounding at those boundaries or its handling of subnormal results.
- Shared-pointer aliasing is not modelled. A node annotated by the checker is a new value, so a type node shared by two declarations is not updated in both.
- Checker visits whose bodies are not part of this model leave their node unchanged: calls, `if`, `for`, `while`, unary operators, member access, member reassignment, `break`, `continue`, imports, lambdas, module marks and classes.
- `castNumbersInBinaryTree` is not part of this model; it is the identity. `checkLabels("@strict")` is a boolean parameter `strict` of the operator handlers.
- The operator handlers (`handlePlusOperator`, `handleMinusOperator`, ..., `handleCompareOperator`, `handleLogicalOperator`) and `toStringHandler` are not called by the visits modelled here, since `visit(BinaryOpNode)` rewrites `+` itself. They are modelled as standalone functions.
- A `return` node whose expression pointer is null is not modelled, because the AST datatype always holds an expression.
- Reading a line past the end of the token lines is undefined behaviour in the parser. It is modelled as reading an empty line.
- The commented-out code in the visits is not modelled.
- Collections.Validate, Collections.ValidateArray, Collections.ValidateMap, Collections.Apply, Collections.CastArray and Collections.CastMap state only that the nesting weight is kept (the casts also that the type stays generic), which the surrounding visits need for termination. The element rules they implement are stated by Collections.CheckPartRule, Collections.ValidateMapEntries, Collections.StringInIntArray, Collections.CastArrayNumbers, Collections.CastMapEntries, Collections.CastMapNumbers and Collections.RewriteSimpleParams.
- StmtCheck.VisitFunction states only that the scopes grow. Its guards and its registration are stated by StmtCheck.FunctionGuards and StmtCheck.FunctionDeclared.
- StmtCheck.EnterFunction states only that the scopes grow. The missing-`return` rule it applies to every function is stated by StmtCheck.MissingReturnRule.
- StmtCheck.VisitAssign states only that the scopes grow. Its rules are stated by StmtCheck.AssignDeclares, StmtCheck.AutoCollectionDeclares, StmtCheck.StringInitializerRefused and StmtCheck.I1DeclarationIff.
- StmtCheck.VisitReturn states only that the scopes grow. Its rules are stated by StmtCheck.ReturnSpec.
- StmtCheck.VisitReassign states only that the scopes grow. Its rules are stated by StmtCheck.ReassignSpec and StmtCheck.ReassignMismatch.
- StatementSpec.Statement does not model `use` statements (`parseUse`, src/parser/Parser.cpp:53-56). A line starting with the keyword `use` gives the error "Unsupported statement: use", because the module-path syntax of `use` is not part of this model.
- Parser.Parser.ParseStatement does not model `use` statements either. It follows StatementSpec.Statement and returns the same "Unsupported statement: use" error.
- The parser's function-declaration test (src/parser/Parser.cpp:44) also accepts a line ending in a `TokenType::Label` token. The token types in `Token.h` declare no `Label`, so that alternative is dropped.
- The lexer reads the bytes of a `std::string`, while the model reads Unicode characters. On non-ASCII input the columns, the token boundaries and the `ErrorEngine` pointer positions can differ from the source's, because one character may be several bytes there. The signed-char test in `Lexer.Dropped`, which drops codes of 128 and above, is the byte rule applied to whole characters.
- AST nodes carry no line or column. Messages that print a position lose it: `getTypeByASTNode` (src/runtime/CodeGenContext.cpp:65) appends " : line:column", and CodeGenTypes.TypeByAstNode gives the message without it.
