/**
 * src/lib/compiler/utils.ts: the module-level file name and input, the input
 * normalisation, the numbering of lines for reports, and the text of an
 * error report. The module-level variables become the fields of a `Report`
 * object; `console.error` is left out and `ReportError` returns the text it
 * would print.
 */
module Utils {
  import opened Base
  import opened Syntax

  // ---------------------------------------------------------------------------
  // Normalising the input (`setUserInput`).

  /** `replaceAll("\r\n", "\n")`: one left-to-right pass over non-overlapping occurrences. */
  function ReplaceCrlf(s: string): (r: string)
    ensures |r| <= |s|
    decreases |s|
  {
    if |s| >= 2 && s[0] == '\r' && s[1] == '\n' then "\n" + ReplaceCrlf(s[2..])
    else if s == [] then []
    else [s[0]] + ReplaceCrlf(s[1..])
  }

  /** `replaceAll("\t", " ")`. */
  function TabsToSpaces(s: string): (r: string)
    ensures |r| == |s|
  {
    if s == [] then [] else [if s[0] == '\t' then ' ' else s[0]] + TabsToSpaces(s[1..])
  }

  /** The characters `setUserInput` stores. */
  function Normalise(input: string): string
  {
    TabsToSpaces(ReplaceCrlf(input))
  }

  /** Replacing tabs keeps every other character in place and leaves no tab. */
  lemma {:induction false} TabsToSpacesSpec(s: string)
    ensures forall i :: 0 <= i < |s| ==>
      TabsToSpaces(s)[i] == (if s[i] == '\t' then ' ' else s[i])
  {
    if s != [] {
      TabsToSpacesSpec(s[1..]);
      forall i | 0 <= i < |s|
        ensures TabsToSpaces(s)[i] == (if s[i] == '\t' then ' ' else s[i])
      {
        if i > 0 {
          assert TabsToSpaces(s)[i] == TabsToSpaces(s[1..])[i - 1];
        }
      }
    }
  }

  /** Text without a carriage return followed by a line feed is left as it is. */
  lemma {:induction false} ReplaceCrlfIdentity(s: string)
    requires forall i :: 0 <= i < |s| - 1 ==> !(s[i] == '\r' && s[i + 1] == '\n')
    ensures ReplaceCrlf(s) == s
  {
    if s != [] {
      ReplaceCrlfIdentity(s[1..]);
      assert [s[0]] + s[1..] == s;
    }
  }

  /** The replacement keeps the number of line feeds, so line numbers are unchanged. */
  lemma {:induction false} ReplaceCrlfNewlines(s: string)
    ensures Newlines(ReplaceCrlf(s)) == Newlines(s)
    decreases |s|
  {
    if |s| >= 2 && s[0] == '\r' && s[1] == '\n' {
      ReplaceCrlfNewlines(s[2..]);
      NewlinesJoin("\n", ReplaceCrlf(s[2..]));
      assert s == s[..2] + s[2..];
      NewlinesJoin(s[..2], s[2..]);
      assert Newlines(s[..2]) == 1 by {
        assert s[..2][1..] == "\n";
        assert Newlines("\n") == 1 by { assert "\n"[1..] == []; }
      }
    } else if s != [] {
      ReplaceCrlfNewlines(s[1..]);
      NewlinesJoin([s[0]], ReplaceCrlf(s[1..]));
      assert [s[0]][1..] == [];
    }
  }

  /** The normalised input has no tab and as many line feeds as the input. */
  lemma NormaliseSpec(input: string)
    ensures forall i :: 0 <= i < |Normalise(input)| ==> Normalise(input)[i] != '\t'
    ensures Newlines(Normalise(input)) == Newlines(input)
  {
    var r := ReplaceCrlf(input);
    TabsToSpacesSpec(r);
    ReplaceCrlfNewlines(input);
    TabsNewlines(r);
  }

  lemma {:induction false} TabsNewlines(s: string)
    ensures Newlines(TabsToSpaces(s)) == Newlines(s)
  {
    if s != [] {
      TabsNewlines(s[1..]);
      var r := TabsToSpaces(s);
      assert r[0] == (if s[0] == '\t' then ' ' else s[0]);
      assert r[1..] == TabsToSpaces(s[1..]);
    }
  }

  /** A single pass: a carriage return before a CRLF pair leaves a CRLF pair behind. */
  lemma ReplaceCrlfSinglePass()
    ensures ReplaceCrlf("\r\r\n") == "\r\n"
  {
    assert "\r\r\n"[1..] == "\r\n";
    assert "\r\n"[2..] == [];
  }

  // ---------------------------------------------------------------------------
  // Numbered lines (`setLineNumber`).

  /** An entry of `NewInput`. */
  datatype Line = Line(num: int, content: string)

  predicate NoNewline(v: string)
  {
    forall i :: 0 <= i < |v| ==> v[i] != '\n'
  }

  /** The text the entries stand for: each content followed by its newline. */
  function Joined(lines: seq<Line>): (r: string)
    ensures Newlines(r) >= |lines|
  {
    if lines == [] then []
    else
      var r := Joined(lines[..|lines| - 1]) + lines[|lines| - 1].content + "\n";
      NewlinesJoin(Joined(lines[..|lines| - 1]) + lines[|lines| - 1].content, "\n");
      NewlinesJoin(Joined(lines[..|lines| - 1]), lines[|lines| - 1].content);
      assert Newlines("\n") == 1 by { assert "\n"[1..] == []; }
      r
  }

  /**
   * `lines` numbers the input: entries are numbered 1, 2, ... in order, none
   * holds a newline, together with their newlines they spell the input up to
   * its last newline, and what follows that newline holds none.
   */
  predicate Numbered(input: string, lines: seq<Line>)
  {
    (forall k :: 0 <= k < |lines| ==> lines[k].num == k + 1 && NoNewline(lines[k].content))
    && |Joined(lines)| <= |input| && input[..|Joined(lines)|] == Joined(lines)
    && NoNewline(input[|Joined(lines)|..])
  }

  /** `setLineNumber(input)`. */
  method SetLineNumber(input: string) returns (newInput: seq<Line>)
    ensures Numbered(input, newInput)
  {
    var current := 0;
    var lNum := 0;
    var lineContent: string := [];
    newInput := [];
    while current < |input|
      invariant 0 <= current <= |input| && lNum == |newInput|
      invariant forall k :: 0 <= k < |newInput| ==> newInput[k].num == k + 1 && NoNewline(newInput[k].content)
      invariant Joined(newInput) + lineContent == input[..current]
      invariant NoNewline(lineContent)
    {
      var cur := input[current];
      assert input[..current + 1] == input[..current] + [cur];
      if cur == '\n' {
        lNum := lNum + 1;
        assert Joined(newInput + [Line(lNum, lineContent)]) == Joined(newInput) + lineContent + "\n" by {
          assert (newInput + [Line(lNum, lineContent)])[..|newInput|] == newInput;
        }
        newInput := newInput + [Line(lNum, lineContent)];
        lineContent := [];
      } else {
        lineContent := lineContent + [cur];
      }
      current := current + 1;
    }
    assert input[..|Joined(newInput)|] == Joined(newInput) by {
      assert input == Joined(newInput) + lineContent;
    }
    assert input[|Joined(newInput)|..] == lineContent;
  }

  /** Joined text has exactly one newline per entry when no entry holds a newline. */
  lemma {:induction false} NewlinesBound(lines: seq<Line>)
    requires forall k :: 0 <= k < |lines| ==> NoNewline(lines[k].content)
    ensures Newlines(Joined(lines)) == |lines|
  {
    if lines != [] {
      var n := |lines| - 1;
      NewlinesBound(lines[..n]);
      NewlinesJoin(Joined(lines[..n]) + lines[n].content, "\n");
      NewlinesJoin(Joined(lines[..n]), lines[n].content);
      NoNewlines(lines[n].content);
      assert Newlines("\n") == 1 by { assert "\n"[1..] == []; }
    }
  }

  /** There is one entry per newline of the input. */
  lemma NumberedCount(input: string, lines: seq<Line>)
    requires Numbered(input, lines)
    ensures |lines| == Newlines(input)
  {
    var j := Joined(lines);
    NewlinesBound(lines);
    assert input == j + input[|j|..];
    NewlinesJoin(j, input[|j|..]);
    NoNewlines(input[|j|..]);
  }

  // ---------------------------------------------------------------------------
  // The report (`reportError`).

  /** `inputForReport.find(l => l.num === n)?.content`. */
  function FindLine(lines: seq<Line>, n: int): (r: Option<string>)
    ensures r.Some? <==> exists k :: 0 <= k < |lines| && lines[k].num == n
  {
    if lines == [] then None
    else if lines[0].num == n then Some(lines[0].content)
    else FindLine(lines[1..], n)
  }

  /** On numbered lines, line `n` is entry `n - 1`, and a line with no newline after it is missing. */
  lemma {:induction false} FindNumbered(lines: seq<Line>, n: int, base: int)
    requires forall k :: 0 <= k < |lines| ==> lines[k].num == base + k
    ensures FindLine(lines, n) == if base <= n < base + |lines| then Some(lines[n - base].content) else None
    decreases |lines|
  {
    if lines != [] && lines[0].num != n {
      FindNumbered(lines[1..], n, base + 1);
    }
  }

  function Spaces(n: nat): (r: string)
    ensures |r| == n && forall i :: 0 <= i < n ==> r[i] == ' '
  {
    seq(n, i => ' ')
  }

  /** `[ERROR] ` in red. */
  const Prefix: string := "[" + "\U{1B}[31m" + "ERROR" + "\U{1B}[0m" + "] "

  /** `file:line:character message`. */
  function Header(filename: string, e: CompileError): string
  {
    filename + ":" + IntToString(e.pos.line) + ":" + IntToString(e.pos.character) + " " + e.message + "\n"
  }

  /** The offending line indented by four spaces; a line `find` misses prints as `undefined`. */
  function SourceLine(lines: seq<Line>, e: CompileError): string
  {
    Spaces(4) + (match FindLine(lines, e.pos.line) case Some(c) => c case None => "undefined") + "\n"
  }

  /** The caret line: `^` after 3 + character spaces (`repeat` needs a count of at least 0). */
  function Caret(e: CompileError): string
    requires e.pos.character >= -3
  {
    Spaces(3 + e.pos.character) + "^\n"
  }

  predicate Columns(errors: seq<CompileError>)
  {
    forall k :: 0 <= k < |errors| ==> errors[k].pos.character >= -3
  }

  /** The array `c` pushed for one error. */
  function ErrorPieces(filename: string, lines: seq<Line>, e: CompileError): seq<string>
    requires e.pos.character >= -3
  {
    [Prefix, Header(filename, e), SourceLine(lines, e), Caret(e), "\n"]
  }

  /** The arrays pushed for a list of errors, in order. */
  function ErrorBlocks(filename: string, lines: seq<Line>, errors: seq<CompileError>): (r: seq<seq<string>>)
    requires Columns(errors)
    ensures |r| == |errors|
  {
    seq(|errors|, i requires 0 <= i < |errors| && Columns(errors) => ErrorPieces(filename, lines, errors[i]))
  }

  /** One error's entry: prefix, header, source line and caret line. */
  function Entry(filename: string, lines: seq<Line>, e: CompileError): string
    requires e.pos.character >= -3
  {
    Prefix + Header(filename, e) + SourceLine(lines, e) + Caret(e)
  }

  /** `push(...c)` for each array in turn. */
  function Flatten(blocks: seq<seq<string>>): seq<string>
  {
    if blocks == [] then [] else Flatten(blocks[..|blocks| - 1]) + blocks[|blocks| - 1]
  }

  /** `content.join("")`. */
  function Concat(pieces: seq<string>): string
  {
    if pieces == [] then [] else Concat(pieces[..|pieces| - 1]) + pieces[|pieces| - 1]
  }

  /** Texts separated by newlines. */
  function JoinLines(entries: seq<string>): string
    requires entries != []
  {
    if |entries| == 1 then entries[0]
    else JoinLines(entries[..|entries| - 1]) + "\n" + entries[|entries| - 1]
  }

  /**
   * The report: nothing for no errors; otherwise a newline, then the entries
   * separated by newlines, with no newline after the last one.
   */
  function ReportText(filename: string, lines: seq<Line>, errors: seq<CompileError>): string
    requires Columns(errors)
  {
    if errors == [] then ""
    else "\n" + JoinLines(seq(|errors|, i requires 0 <= i < |errors| && Columns(errors) => Entry(filename, lines, errors[i])))
  }

  lemma {:induction false} ConcatAppend(a: seq<string>, b: seq<string>)
    ensures Concat(a + b) == Concat(a) + Concat(b)
    decreases |b|
  {
    if b == [] {
      assert a + b == a;
    } else {
      var front := b[..|b| - 1];
      ConcatAppend(a, front);
      assert (a + b)[..|a + b| - 1] == a + front;
      AppendAssoc(Concat(a), Concat(front), b[|b| - 1]);
    }
  }

  lemma Concat4(a: string, b: string, c: string, d: string)
    ensures Concat([a, b, c, d]) == a + b + c + d
  {
    assert Concat([a]) == a by { assert [a][..0] == []; }
    assert Concat([a, b]) == a + b by { assert [a, b][..1] == [a]; }
    assert Concat([a, b, c]) == a + b + c by { assert [a, b, c][..2] == [a, b]; }
    assert [a, b, c, d][..3] == [a, b, c];
  }

  /**
   * Pushing a newline, then blocks of five pieces each ending with a newline,
   * and popping the last piece joins to a newline and the blocks' first four
   * pieces separated by newlines.
   */
  lemma {:induction false} FlattenText(blocks: seq<seq<string>>, entries: seq<string>)
    requires blocks != [] && |entries| == |blocks|
    requires forall i :: 0 <= i < |blocks| ==>
      |blocks[i]| == 5 && blocks[i][4] == "\n" && entries[i] == Concat(blocks[i][..4])
    ensures var p := ["\n"] + Flatten(blocks); Concat(p[..|p| - 1]) == "\n" + JoinLines(entries)
    decreases |blocks|, 1
  {
    var n := |blocks| - 1;
    var q := ["\n"] + Flatten(blocks[..n]);
    assert ["\n"] + Flatten(blocks) == q + blocks[n];
    DropLastPiece(q, blocks[n]);
    if n == 0 {
      assert Concat(q) == "\n" by { assert q == ["\n"]; assert q[..0] == []; }
    } else {
      FlattenPrefixText(blocks, entries);
    }
  }

  /** The pieces before the last block join to a newline, the earlier entries and a newline. */
  lemma {:induction false} FlattenPrefixText(blocks: seq<seq<string>>, entries: seq<string>)
    requires |blocks| > 1 && |entries| == |blocks|
    requires forall i :: 0 <= i < |blocks| ==>
      |blocks[i]| == 5 && blocks[i][4] == "\n" && entries[i] == Concat(blocks[i][..4])
    ensures Concat(["\n"] + Flatten(blocks[..|blocks| - 1])) == "\n" + JoinLines(entries[..|blocks| - 1]) + "\n"
    decreases |blocks|, 0
  {
    var n := |blocks| - 1;
    var q := ["\n"] + Flatten(blocks[..n]);
    FlattenText(blocks[..n], entries[..n]);
    NewlineLast(q);
  }

  /** Popping the last of five pushed pieces leaves the first four. */
  lemma DropLastPiece(q: seq<string>, b: seq<string>)
    requires |b| == 5
    ensures Concat((q + b)[..|q + b| - 1]) == Concat(q) + Concat(b[..4])
  {
    assert (q + b)[..|q + b| - 1] == q + b[..4];
    ConcatAppend(q, b[..4]);
  }

  /** Pieces ending in a newline piece join to the rest and a newline. */
  lemma NewlineLast(q: seq<string>)
    requires q != [] && q[|q| - 1] == "\n"
    ensures Concat(q) == Concat(q[..|q| - 1]) + "\n"
  {
  }

  /** The report is the pieces `reportError` pushes, joined after popping the last one. */
  lemma PiecesText(filename: string, lines: seq<Line>, errors: seq<CompileError>)
    requires Columns(errors) && errors != []
    ensures var p := ["\n"] + Flatten(ErrorBlocks(filename, lines, errors));
      Concat(p[..|p| - 1]) == ReportText(filename, lines, errors)
  {
    var blocks := ErrorBlocks(filename, lines, errors);
    var entries := seq(|errors|, i requires 0 <= i < |errors| && Columns(errors) => Entry(filename, lines, errors[i]));
    forall i | 0 <= i < |blocks|
      ensures |blocks[i]| == 5 && blocks[i][4] == "\n" && entries[i] == Concat(blocks[i][..4])
    {
      var b := blocks[i];
      assert b[..4] == [b[0], b[1], b[2], b[3]];
      Concat4(b[0], b[1], b[2], b[3]);
    }
    FlattenText(blocks, entries);
  }

  /** The entry's caret sits under the character the error points at. */
  lemma CaretUnderCharacter(lines: seq<Line>, e: CompileError, content: string)
    requires FindLine(lines, e.pos.line) == Some(content)
    requires 1 <= e.pos.character <= |content|
    ensures var s, c := SourceLine(lines, e), Caret(e);
      c[3 + e.pos.character] == '^' && s[3 + e.pos.character] == content[e.pos.character - 1]
      && forall i :: 0 <= i < 3 + e.pos.character ==> c[i] == ' '
  {
  }

  // ---------------------------------------------------------------------------
  // The module-level state.

  class Report {
    var filename: string
    var userInput: string
    var inputForReport: seq<Line>

    /** Both the file name and the input start out unset. */
    constructor ()
      ensures filename == [] && userInput == [] && inputForReport == []
    {
      filename := [];
      userInput := [];
      inputForReport := [];
    }

    /** `setFilename`. */
    method SetFilename(name: string)
      modifies this
      ensures filename == name && userInput == old(userInput) && inputForReport == old(inputForReport)
    {
      filename := name;
    }

    /** `setUserInput`: the normalised characters, and their numbered lines. */
    method SetUserInput(input: string)
      modifies this
      ensures userInput == Normalise(input) && Numbered(userInput, inputForReport)
      ensures filename == old(filename)
    {
      var l := Normalise(input);
      userInput := l;
      inputForReport := SetLineNumber(userInput);
    }

    /** `getUserInput`. */
    function GetUserInput(): string
      reads this
    {
      userInput
    }

    /** `reportError(errorList)`: the text handed to `console.error`. */
    method ReportError(errorList: seq<CompileError>) returns (text: string)
      requires Columns(errorList)
      ensures text == ReportText(filename, inputForReport, errorList)
    {
      var content: seq<string> := ["\n"];
      for i := 0 to |errorList|
        invariant content == ["\n"] + Flatten(ErrorBlocks(filename, inputForReport, errorList[..i]))
      {
        var e := errorList[i];
        var c := ErrorPieces(filename, inputForReport, e);
        BlocksStep(filename, inputForReport, errorList, i);
        AppendAssoc(["\n"], Flatten(ErrorBlocks(filename, inputForReport, errorList[..i])), c);
        content := content + c;
      }
      assert errorList[..|errorList|] == errorList;
      content := content[..|content| - 1];
      if errorList == [] {
        assert content == [];
      } else {
        PiecesText(filename, inputForReport, errorList);
      }
      text := Concat(content);
    }
  }

  /** One more error adds its array at the end. */
  lemma BlocksStep(filename: string, lines: seq<Line>, errors: seq<CompileError>, i: nat)
    requires Columns(errors) && i < |errors|
    ensures Flatten(ErrorBlocks(filename, lines, errors[..i + 1]))
         == Flatten(ErrorBlocks(filename, lines, errors[..i])) + ErrorPieces(filename, lines, errors[i])
  {
    assert ErrorBlocks(filename, lines, errors[..i + 1])
        == ErrorBlocks(filename, lines, errors[..i]) + [ErrorPieces(filename, lines, errors[i])];
  }
}
