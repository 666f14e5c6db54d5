/**
 * The driver of the compiler (`main.ts`): normalise the input, tokenize it,
 * parse the tokens, lower the tree and generate the module text. The first two
 * stages stop the compilation by throwing when they report errors; the errors
 * then go to a list that belongs to the module and is never emptied, and
 * `compiler` prints that whole list instead of returning a text.
 */
module Pipeline {
  import opened Base
  import opened Syntax
  import Utils
  import Lexer
  import Grammar
  import Parser
  import Lowered
  import Converter
  import CodeGen

  /** Thrown by `compile` when the lexer reported errors. */
  const LexFailure: string := "字句解析エラー"

  /** Thrown by `compile` when the parser reported errors. */
  const ParseFailure: string := "構文解析エラー"

  /** Thrown where the parser reads past the end-of-input token. */
  const Crash: string := "Cannot read properties of undefined"

  /** Thrown by `repeat` with a negative count. */
  const InvalidCount: string := "Invalid count value"

  /** One call of `compile`: how it ended, and the errors it pushed before throwing. */
  datatype Run = Run(result: Outcome<string>, pushed: seq<CompileError>)

  /** What the code generator makes of a lowered program, as an outcome. */
  function Generate(prog: Outcome<Lowered.Program>): (r: Outcome<string>)
    ensures r.Returns? ==> Utils.JoinLines(CodeGen.Imports) + "\n" <= r.value
  {
    match prog
    case Diverges => Diverges
    case Throws(msg) => Throws(msg)
    case Returns(p) =>
      match CodeGen.Generated(p)
      case Throw(msg) => Throws(msg)
      case Ok(text) =>
        GeneratedStartsWithImports(p);
        Returns(text)
  }

  /** A generated module begins with its import lines. */
  lemma GeneratedStartsWithImports(prog: Lowered.Program)
    requires CodeGen.Generated(prog).Ok?
    ensures Utils.JoinLines(CodeGen.Imports) + "\n" <= CodeGen.Generated(prog).value
  {
    var lines := CodeGen.ProgramLines(prog).value;
    JoinLinesPrefix(CodeGen.Imports, lines);
  }

  /**
   * `compile(filename, input)`: the text of the generated module, or how it fails.
   * The file name only feeds the error report, so it is not a parameter here. The
   * lexer's loop does not stop on a `%` comment with no newline after it, which
   * shows as `Diverges`; `fuel` bounds the depth of the scheduler's dependency
   * walk, past which the call stack overflows with a thrown RangeError.
   */
  function Compilation(input: string, fuel: nat): (r: Run)
    ensures r.pushed != [] ==> r.result == Throws(LexFailure) || r.result == Throws(ParseFailure)
    ensures r.result.Returns? ==> r.pushed == [] && Utils.JoinLines(CodeGen.Imports) + "\n" <= r.result.value
  {
    Lexing(Utils.Normalise(input), fuel)
  }

  /** The stages from the lexer on, given the normalised input. */
  function Lexing(text: string, fuel: nat): (r: Run)
    ensures r.pushed != [] ==> r.result == Throws(LexFailure) || r.result == Throws(ParseFailure)
    ensures r.result.Returns? ==> r.pushed == [] && Utils.JoinLines(CodeGen.Imports) + "\n" <= r.result.value
  {
    if !Lexer.CommentsEnd(text) then Run(Diverges, [])
    else
      match Lexer.Lex(text)
      case Throw(msg) => Run(Throws(msg), [])
      case Ok(lexed) => AfterLexing(lexed, fuel)
  }

  /** The stages after the lexer: its errors stop the compilation before the parser runs. */
  function AfterLexing(lexed: Lexer.LexResult, fuel: nat): (r: Run)
    ensures lexed.errors != [] ==> r == Run(Throws(LexFailure), lexed.errors)
    ensures r.pushed != [] ==> r.result == Throws(LexFailure) || r.result == Throws(ParseFailure)
    ensures r.result.Returns? ==> r.pushed == [] && Utils.JoinLines(CodeGen.Imports) + "\n" <= r.result.value
  {
    if lexed.errors != [] then Run(Throws(LexFailure), lexed.errors)
    else
      match Grammar.Parse(lexed.tokens)
      case Crashed => Run(Throws(Crash), [])
      case Parsed(ast, _) => AfterParsing(ast, fuel)
  }

  /** The stages after the parser: its errors stop the compilation before the lowering. */
  function AfterParsing(ast: Grammar.ParseResult, fuel: nat): (r: Run)
    ensures ast.errors != [] ==> r == Run(Throws(ParseFailure), ast.errors)
    ensures ast.errors == [] ==> r.pushed == []
    ensures r.result.Returns? ==> Utils.JoinLines(CodeGen.Imports) + "\n" <= r.result.value
  {
    if ast.errors != [] then Run(Throws(ParseFailure), ast.errors)
    else Run(Generate(Converter.ConvertProgram(ast.program, fuel)), [])
  }

  /** `converter`, then `codeGen` on a fresh generator. */
  method Lower(prog: Syntax.Program, fuel: nat) returns (r: Outcome<string>)
    ensures r == Generate(Converter.ConvertProgram(prog, fuel))
  {
    var lowered := Converter.ConvertProgram(prog, fuel);
    if !lowered.Returns? {
      return if lowered.Diverges? then Diverges else Throws(lowered.message);
    }
    r := CodeGenOf(lowered.value);
  }

  /** `codeGen(prog)`: a fresh generator's text. */
  method CodeGenOf(prog: Lowered.Program) returns (r: Outcome<string>)
    ensures r == Generate(Returns(prog))
  {
    var generator := new CodeGen.CodeGenerator(prog);
    var out := generator.Generate();
    r := if out.Ok? then Returns(out.value) else Throws(out.message);
  }

  /** Entries that begin a longer list begin its joined text, followed by a newline. */
  lemma {:induction false} JoinLinesPrefix(front: seq<string>, entries: seq<string>)
    requires front != [] && front <= entries && |front| < |entries|
    ensures Utils.JoinLines(front) + "\n" <= Utils.JoinLines(entries)
    decreases |entries|
  {
    var init := entries[..|entries| - 1];
    assert front <= init;
    if |front| < |init| {
      JoinLinesPrefix(front, init);
    } else {
      assert front == init;
    }
  }

  /** A compilation that succeeds met no lexical and no syntax error. */
  lemma {:induction false} SuccessIsClean(input: string, fuel: nat)
    requires Compilation(input, fuel).result.Returns?
    ensures var text := Utils.Normalise(input);
      && Lexer.CommentsEnd(text) && Lexer.Lex(text).Ok?
      && Lexer.Lex(text).value.errors == []
      && Grammar.Parse(Lexer.Lex(text).value.tokens).Parsed?
      && Grammar.Parse(Lexer.Lex(text).value.tokens).value.errors == []
  {
  }

  /**
   * The module-level state: the error list of `main.ts` and the file name and
   * input kept by `utils.ts` for the report.
   */
  class Driver {
    var errorList: seq<CompileError>
    var report: Utils.Report

    /** The list starts empty. */
    constructor ()
      ensures errorList == [] && fresh(report)
    {
      errorList := [];
      report := new Utils.Report();
    }

    /** `compile`: errors are pushed onto the list, which keeps those of earlier calls. */
    method Compile(filename: string, input: string, fuel: nat) returns (r: Outcome<string>)
      modifies this, report
      ensures report == old(report)
      ensures r == Compilation(input, fuel).result
      ensures errorList == old(errorList) + Compilation(input, fuel).pushed
      ensures report.filename == filename && report.userInput == Utils.Normalise(input)
      ensures Utils.Numbered(report.userInput, report.inputForReport)
    {
      report.SetFilename(filename);
      report.SetUserInput(input);
      var text := report.GetUserInput();
      assert Compilation(input, fuel) == Lexing(text, fuel);
      if !Lexer.CommentsEnd(text) {
        return Diverges;
      }
      var lexer := new Lexer.Lexer();
      var lexed := lexer.Exec(text);
      if lexed.Throw? {
        return Throws(lexed.message);
      }
      r := Parse(lexed.value, fuel);
    }

    /** The part of `compile` after `tokenize`. */
    method Parse(lexed: Lexer.LexResult, fuel: nat) returns (r: Outcome<string>)
      modifies this
      ensures report == old(report)
      ensures r == AfterLexing(lexed, fuel).result
      ensures errorList == old(errorList) + AfterLexing(lexed, fuel).pushed
    {
      if lexed.errors != [] {
        errorList := errorList + lexed.errors;
        return Throws(LexFailure);
      }
      var ast := Parser.Parse(lexed.tokens);
      if ast.None? {
        return Throws(Crash);
      }
      if ast.value.errors != [] {
        errorList := errorList + ast.value.errors;
        return Throws(ParseFailure);
      }
      r := Lower(ast.value.program, fuel);
    }

    /**
     * `compiler`: the generated text, or `None` after the whole error list has
     * been reported (`reported` is the text printed). Reporting throws in turn
     * when an error's column makes the caret's indentation negative.
     */
    method Compiler(filename: string, input: string, fuel: nat) returns (r: Outcome<Option<string>>, reported: string)
      modifies this, report
      ensures report == old(report)
      ensures var run := Compilation(input, fuel);
        && errorList == old(errorList) + run.pushed
        && (run.result.Returns? ==> r == Returns(Some(run.result.value)) && reported == "")
        && (run.result.Diverges? ==> r == Diverges && reported == "")
        && (run.result.Throws? && Utils.Columns(errorList) ==>
              r == Returns(None) && reported == Utils.ReportText(filename, report.inputForReport, errorList))
        && (run.result.Throws? && !Utils.Columns(errorList) ==> r == Throws(InvalidCount) && reported == "")
    {
      reported := "";
      var out := Compile(filename, input, fuel);
      match out
      case Returns(s) => r := Returns(Some(s));
      case Diverges => r := Diverges;
      case Throws(_) =>
        if Utils.Columns(errorList) {
          reported := report.ReportError(errorList);
          r := Returns(None);
        } else {
          r := Throws(InvalidCount);
        }
    }
  }
}
