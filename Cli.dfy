/**
 * The command line: `parseArgs` walks the arguments after the program name, setting
 * one option per recognised flag, taking the output name after `--compile`, taking
 * any argument that does not start with '-' as the input file, and ending the process
 * on `--help` (status 0), an unknown option or a missing output name (status 1).
 */
module Cli {

  /** The options the rest of the driver reads. */
  datatype CliOptions = CliOptions(
    showTokens: bool,
    showAST: bool,
    showSymantic: bool,
    runJIT: bool,
    compileExecutable: bool,
    executableFile: string,
    offOptimization: bool,
    inputFile: string)

  /** Every flag off and both names empty. */
  const Defaults := CliOptions(false, false, false, false, false, "", false, "")

  /** What parsing yields: the options, or the process ends with a status and a line on the error stream ("" for `--help`, which prints the usage text). */
  datatype ParseOutcome =
    | Options(options: CliOptions)
    | Exit(status: int, message: string)

  const CompileNeedsOutput := "Error: --compile requires an output file name."

  /** The flags that set one option and take no operand. */
  const SimpleFlags: set<string> := {"--tokens", "--ast", "--symantic", "--run", "run", "--offOptimization"}

  /**
   * An argument taken as the input file. An empty argument counts: its first
   * character is the terminating NUL, which is not '-'.
   */
  predicate IsInputName(arg: string)
  {
    arg == [] || arg[0] != '-'
  }

  /**
   * The closing normalisation as written: when no display flag is set, all three
   * display flags are set to false.
   */
  function Normalise(o: CliOptions): (r: CliOptions)
    ensures r == o
  {
    if !o.showTokens && !o.showAST && !o.showSymantic then
      o.(showTokens := false, showAST := false, showSymantic := false)
    else o
  }

  /** One loop step on a simple flag. */
  function SetFlag(o: CliOptions, arg: string): (r: CliOptions)
    requires arg in SimpleFlags
    ensures r.showTokens == (o.showTokens || arg == "--tokens")
    ensures r.showAST == (o.showAST || arg == "--ast")
    ensures r.showSymantic == (o.showSymantic || arg == "--symantic")
    ensures r.runJIT == (o.runJIT || arg == "--run" || arg == "run")
    ensures r.offOptimization == (o.offOptimization || arg == "--offOptimization")
    ensures r.compileExecutable == o.compileExecutable && r.executableFile == o.executableFile
    ensures r.inputFile == o.inputFile
  {
    if arg == "--tokens" then o.(showTokens := true)
    else if arg == "--ast" then o.(showAST := true)
    else if arg == "--symantic" then o.(showSymantic := true)
    else if arg == "--run" || arg == "run" then o.(runJIT := true)
    else o.(offOptimization := true)
  }

  /** The outcome of parsing `args[i..]` with the options `o` gathered so far. */
  function ParseFrom(args: seq<string>, i: nat, o: CliOptions): ParseOutcome
    decreases |args| - i
  {
    if i >= |args| then Options(Normalise(o))
    else
      var arg := args[i];
      if arg == "--help" then Exit(0, "")
      else if arg in SimpleFlags then ParseFrom(args, i + 1, SetFlag(o, arg))
      else if arg == "--compile" then
        if i + 1 < |args| then
          ParseFrom(args, i + 2, o.(compileExecutable := true, executableFile := args[i + 1]))
        else Exit(1, CompileNeedsOutput)
      else if IsInputName(arg) then ParseFrom(args, i + 1, o.(inputFile := arg))
      else Exit(1, "Unknown option: " + arg)
  }

  /** `parseArgs`: `args[0]` is the program name. */
  method ParseArgs(args: seq<string>) returns (outcome: ParseOutcome)
    ensures outcome == ParseFrom(args, 1, Defaults)
  {
    var options := Defaults;
    var i := 1;
    while i < |args|
      invariant i >= 1
      invariant ParseFrom(args, 1, Defaults) == ParseFrom(args, i, options)
      decreases |args| - i
    {
      var arg := args[i];
      if arg == "--help" {
        return Exit(0, "");
      } else if arg == "--tokens" {
        options := options.(showTokens := true);
      } else if arg == "--ast" {
        options := options.(showAST := true);
      } else if arg == "--symantic" {
        options := options.(showSymantic := true);
      } else if arg == "--run" || arg == "run" {
        options := options.(runJIT := true);
      } else if arg == "--compile" {
        options := options.(compileExecutable := true);
        if i + 1 < |args| {
          i := i + 1;
          options := options.(executableFile := args[i]);
        } else {
          return Exit(1, CompileNeedsOutput);
        }
      } else if arg == "--offOptimization" {
        options := options.(offOptimization := true);
      } else if arg == [] || arg[0] != '-' {
        options := options.(inputFile := arg);
      } else {
        return Exit(1, "Unknown option: " + arg);
      }
      i := i + 1;
    }
    if !options.showTokens && !options.showAST && !options.showSymantic {
      options := options.(showTokens := false, showAST := false, showSymantic := false);
    }
    return Options(options);
  }

  // ---------------------------------------------------------------------------------
  // Properties of the argument walk
  // ---------------------------------------------------------------------------------

  /** With no arguments after the program name, the defaults come back. */
  lemma NoArguments(program: string)
    ensures ParseFrom([program], 1, Defaults) == Options(Defaults)
  {
  }

  /** `--help` ends the walk with status 0 wherever the walk reaches it. */
  lemma HelpExitsZero(args: seq<string>, i: nat, o: CliOptions)
    requires i < |args| && args[i] == "--help"
    ensures ParseFrom(args, i, o) == Exit(0, "")
  {
  }

  /** An argument starting with '-' that is no known flag ends the walk with status 1 and names it. */
  lemma UnknownOptionExitsOne(args: seq<string>, i: nat, o: CliOptions)
    requires i < |args| && args[i] != [] && args[i][0] == '-'
    requires args[i] !in SimpleFlags && args[i] != "--help" && args[i] != "--compile"
    ensures ParseFrom(args, i, o) == Exit(1, "Unknown option: " + args[i])
  {
  }

  /** `--compile` as the last argument ends the walk with status 1. */
  lemma CompileWithoutOutputExitsOne(args: seq<string>, o: CliOptions)
    requires |args| >= 2 && args[|args| - 1] == "--compile"
    ensures ParseFrom(args, |args| - 1, o) == Exit(1, CompileNeedsOutput)
  {
  }

  /** The argument after `--compile` is the output name even when it looks like a flag: `--compile --help` does not print help. */
  lemma CompileTakesNextVerbatim(program: string, output: string)
    ensures ParseFrom([program, "--compile", output], 1, Defaults) ==
      Options(Defaults.(compileExecutable := true, executableFile := output))
  {
    assert ParseFrom([program, "--compile", output], 3, Defaults.(compileExecutable := true, executableFile := output))
      == Options(Defaults.(compileExecutable := true, executableFile := output));
  }

  /** Only simple flags: each option is set exactly when its flag occurs, and nothing else changes. */
  lemma {:induction false} FlagsAreIndependent(args: seq<string>, i: nat, o: CliOptions)
    requires i <= |args|
    requires forall k :: i <= k < |args| ==> args[k] in SimpleFlags
    ensures ParseFrom(args, i, o).Options?
    ensures var r := ParseFrom(args, i, o).options;
      && (r.showTokens <==> o.showTokens || "--tokens" in args[i..])
      && (r.showAST <==> o.showAST || "--ast" in args[i..])
      && (r.showSymantic <==> o.showSymantic || "--symantic" in args[i..])
      && (r.runJIT <==> o.runJIT || "--run" in args[i..] || "run" in args[i..])
      && (r.offOptimization <==> o.offOptimization || "--offOptimization" in args[i..])
      && r.compileExecutable == o.compileExecutable && r.executableFile == o.executableFile
      && r.inputFile == o.inputFile
    decreases |args| - i
  {
    if i < |args| {
      assert args[i] != "--help";
      assert ParseFrom(args, i, o) == ParseFrom(args, i + 1, SetFlag(o, args[i]));
      FlagsAreIndependent(args, i + 1, SetFlag(o, args[i]));
      assert args[i..] == [args[i]] + args[i + 1..];
    }
  }

  /** Several input names: the last one wins. */
  lemma {:induction false} LastInputWins(args: seq<string>, i: nat, o: CliOptions)
    requires i < |args|
    requires forall k :: i <= k < |args| ==> IsInputName(args[k]) && args[k] !in SimpleFlags
    ensures ParseFrom(args, i, o) == Options(o.(inputFile := args[|args| - 1]))
    decreases |args| - i
  {
    if i + 1 < |args| {
      LastInputWins(args, i + 1, o.(inputFile := args[i]));
    }
  }
}
