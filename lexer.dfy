/**
 * The scanner of src/lib/compiler/lexer.ts. A `Lexer` walks the character
 * array with the counters `current`, `line` and `character`, appends to
 * `tokenList` and `errorList`, and ends the list with one EOF token.
 *
 * `Step` states one turn of the `exec` loop and `Scan` the whole loop; the
 * class's `Exec` is proved to compute `Lex`, and the lemmas below state what
 * the scanner promises about the tokens it produces.
 */
module Lexer {
  import opened Base
  import opened Syntax

  // ---------------------------------------------------------------------------
  // Tables (KEYWORDS, OPT, SINGLE_LETTER). "falt" is the source's spelling.

  const Keywords: seq<string> := ["true", "falt", "method", "module", "end", "select", "for", "case",
    "sqrt", "exp", "call", "when", "test", "integer", "real", "atom", "bool", "length", "nth", "sum"]

  const Operators: seq<string> := ["==", "\\=", "=<", ">=", "or", "and", "not", "mod", "->"]

  /** `[...KEYWORDS, ...OPT]`, the list tried first. */
  const ReservedWords: seq<string> := Keywords + Operators

  const SingleLetters: seq<string> := ["+", "-", "*", "/", "^", "(", ")", "<", ">", ";", ":", "=",
    "{", "}", "[", "]", ",", "[", "]", ".", "\"", "i", "r", "a", "b"]

  // ---------------------------------------------------------------------------
  // Character classes (the regular expressions of the source).

  /** `/(\s|\t)/`: the JavaScript white-space and line-terminator characters. */
  predicate IsWhitespace(c: char)
  {
    c == ' ' || c == '\t' || c == '\n' || c == '\r' || c == 11 as char || c == 12 as char
    || c == '\U{A0}' || c == '\U{1680}' || ('\U{2000}' <= c <= '\U{200A}') || c == '\U{2028}'
    || c == '\U{2029}' || c == '\U{202F}' || c == '\U{205F}' || c == '\U{3000}' || c == '\U{FEFF}'
  }

  predicate IsDigit(c: char) { '0' <= c <= '9' }

  predicate IsLower(c: char) { 'a' <= c <= 'z' }

  /** `/[A-Z_]/`: the start of a variable name. */
  predicate IsVariableStart(c: char) { 'A' <= c <= 'Z' || c == '_' }

  /** `IDENTIFIER = /[a-zA-Z_]/`. */
  predicate IsIdentStart(c: char) { IsLower(c) || IsVariableStart(c) }

  /** `IDENT_NUM = /[a-zA-Z0-9_]/`. */
  predicate IsIdentChar(c: char) { IsIdentStart(c) || IsDigit(c) }

  /** The number of ranges in the script table. */
  const ScriptRanges := 78

  /**
   * Range `k` of the code points of the four scripts that `VARIABLE_NAME`
   * admits, as Scripts.txt of Unicode 15.1 assigns them: Hiragana, then
   * Katakana, Han and Greek. Greek leaves out the Coptic letters
   * U+03E2-U+03EF and the common punctuation among the Greek letters.
   */
  function ScriptRange(k: nat): (r: (char, char))
    requires k < ScriptRanges
    ensures '\U{0370}' <= r.0 <= r.1
  {
    match k
    // Hiragana
    case 0 => ('\U{3041}', '\U{3096}')
    case 1 => ('\U{309D}', '\U{309F}')
    case 2 => ('\U{1B001}', '\U{1B11F}')
    case 3 => ('\U{1B132}', '\U{1B132}')
    case 4 => ('\U{1B150}', '\U{1B152}')
    case 5 => ('\U{1F200}', '\U{1F200}')
    // Katakana
    case 6 => ('\U{30A1}', '\U{30FA}')
    case 7 => ('\U{30FD}', '\U{30FF}')
    case 8 => ('\U{31F0}', '\U{31FF}')
    case 9 => ('\U{32D0}', '\U{32FE}')
    case 10 => ('\U{3300}', '\U{3357}')
    case 11 => ('\U{FF66}', '\U{FF6F}')
    case 12 => ('\U{FF71}', '\U{FF9D}')
    case 13 => ('\U{1AFF0}', '\U{1AFF3}')
    case 14 => ('\U{1AFF5}', '\U{1AFFB}')
    case 15 => ('\U{1AFFD}', '\U{1AFFE}')
    case 16 => ('\U{1B000}', '\U{1B000}')
    case 17 => ('\U{1B120}', '\U{1B122}')
    case 18 => ('\U{1B155}', '\U{1B155}')
    case 19 => ('\U{1B164}', '\U{1B167}')
    // Han
    case 20 => ('\U{2E80}', '\U{2E99}')
    case 21 => ('\U{2E9B}', '\U{2EF3}')
    case 22 => ('\U{2F00}', '\U{2FD5}')
    case 23 => ('\U{3005}', '\U{3005}')
    case 24 => ('\U{3007}', '\U{3007}')
    case 25 => ('\U{3021}', '\U{3029}')
    case 26 => ('\U{3038}', '\U{303B}')
    case 27 => ('\U{3400}', '\U{4DBF}')
    case 28 => ('\U{4E00}', '\U{9FFF}')
    case 29 => ('\U{F900}', '\U{FA6D}')
    case 30 => ('\U{FA70}', '\U{FAD9}')
    case 31 => ('\U{16FE2}', '\U{16FE3}')
    case 32 => ('\U{16FF0}', '\U{16FF1}')
    case 33 => ('\U{20000}', '\U{2A6DF}')
    case 34 => ('\U{2A700}', '\U{2B739}')
    case 35 => ('\U{2B740}', '\U{2B81D}')
    case 36 => ('\U{2B820}', '\U{2CEA1}')
    case 37 => ('\U{2CEB0}', '\U{2EBE0}')
    case 38 => ('\U{2EBF0}', '\U{2EE5D}')
    case 39 => ('\U{2F800}', '\U{2FA1D}')
    case 40 => ('\U{30000}', '\U{3134A}')
    case 41 => ('\U{31350}', '\U{323AF}')
    // Greek
    case 42 => ('\U{0370}', '\U{0373}')
    case 43 => ('\U{0375}', '\U{0377}')
    case 44 => ('\U{037A}', '\U{037D}')
    case 45 => ('\U{037F}', '\U{037F}')
    case 46 => ('\U{0384}', '\U{0384}')
    case 47 => ('\U{0386}', '\U{0386}')
    case 48 => ('\U{0388}', '\U{038A}')
    case 49 => ('\U{038C}', '\U{038C}')
    case 50 => ('\U{038E}', '\U{03A1}')
    case 51 => ('\U{03A3}', '\U{03E1}')
    case 52 => ('\U{03F0}', '\U{03FF}')
    case 53 => ('\U{1D26}', '\U{1D2A}')
    case 54 => ('\U{1D5D}', '\U{1D61}')
    case 55 => ('\U{1D66}', '\U{1D6A}')
    case 56 => ('\U{1DBF}', '\U{1DBF}')
    case 57 => ('\U{1F00}', '\U{1F15}')
    case 58 => ('\U{1F18}', '\U{1F1D}')
    case 59 => ('\U{1F20}', '\U{1F45}')
    case 60 => ('\U{1F48}', '\U{1F4D}')
    case 61 => ('\U{1F50}', '\U{1F57}')
    case 62 => ('\U{1F59}', '\U{1F59}')
    case 63 => ('\U{1F5B}', '\U{1F5B}')
    case 64 => ('\U{1F5D}', '\U{1F5D}')
    case 65 => ('\U{1F5F}', '\U{1F7D}')
    case 66 => ('\U{1F80}', '\U{1FB4}')
    case 67 => ('\U{1FB6}', '\U{1FC4}')
    case 68 => ('\U{1FC6}', '\U{1FD3}')
    case 69 => ('\U{1FD6}', '\U{1FDB}')
    case 70 => ('\U{1FDD}', '\U{1FEF}')
    case 71 => ('\U{1FF2}', '\U{1FF4}')
    case 72 => ('\U{1FF6}', '\U{1FFE}')
    case 73 => ('\U{2126}', '\U{2126}')
    case 74 => ('\U{AB65}', '\U{AB65}')
    case 75 => ('\U{10140}', '\U{1018E}')
    case 76 => ('\U{101A0}', '\U{101A0}')
    case _ => ('\U{1D200}', '\U{1D245}')
  }

  /** `c` lies in one of the script ranges numbered `k` or more. */
  predicate InScriptRanges(c: char, k: nat)
    requires k <= ScriptRanges
    ensures InScriptRanges(c, k) ==> '\U{0370}' <= c
    decreases ScriptRanges - k
  {
    k < ScriptRanges && ((ScriptRange(k).0 <= c <= ScriptRange(k).1) || InScriptRanges(c, k + 1))
  }

  /** A letter of the Hiragana, Katakana, Han or Greek script; none of them is ASCII. */
  predicate IsScriptLetter(c: char)
    ensures IsScriptLetter(c) ==> '\U{0370}' <= c
  {
    InScriptRanges(c, 0)
  }

  /** `VARIABLE_NAME`: letters, digits, `_` and the letters of those scripts. */
  predicate IsVariableChar(c: char) { IsIdentChar(c) || IsScriptLetter(c) }

  /** The three expressions `accept` is called with. */
  datatype CharClass = Digits | VariableName | IdentNum

  predicate InClass(cls: CharClass, c: char)
  {
    match cls
    case Digits => IsDigit(c)
    case VariableName => IsVariableChar(c)
    case IdentNum => IsIdentChar(c)
  }

  // ---------------------------------------------------------------------------
  // Positions in the input.

  /** `getChar`: the character at `i`, or nothing (the source's "") past the end. */
  function CharAt(input: seq<char>, i: int): (r: Option<char>)
    ensures r.Some? <==> 0 <= i < |input|
    ensures r.Some? ==> r.value == input[i]
  {
    if 0 <= i < |input| then Some(input[i]) else None
  }

  /** The slice of the input at `i` spells `word`. */
  predicate PrefixAt(input: seq<char>, i: nat, word: string)
  {
    i + |word| <= |input| && input[i..i + |word|] == word
  }

  /** The index of the first word of `words`, from index `n` on, that the input at `i` starts with. */
  function FirstPrefixFrom(input: seq<char>, i: nat, words: seq<string>, n: nat): (r: Option<nat>)
    requires n <= |words|
    ensures r.Some? ==> n <= r.value < |words| && PrefixAt(input, i, words[r.value])
    ensures r.Some? ==> forall j :: n <= j < r.value ==> !PrefixAt(input, i, words[j])
    ensures r.None? ==> forall j :: n <= j < |words| ==> !PrefixAt(input, i, words[j])
    decreases |words| - n
  {
    if n == |words| then None
    else if PrefixAt(input, i, words[n]) then Some(n)
    else FirstPrefixFrom(input, i, words, n + 1)
  }

  /** `getReserved`: the index of the first word of `words` that the input at `i` starts with. */
  function FirstPrefix(input: seq<char>, i: nat, words: seq<string>): Option<nat>
  {
    FirstPrefixFrom(input, i, words, 0)
  }

  /** The word `getReserved` returns, or null. */
  function PrefixWord(input: seq<char>, i: nat, words: seq<string>): Option<string>
  {
    match FirstPrefix(input, i, words)
    case None => None
    case Some(k) => Some(words[k])
  }

  /** Where the maximal run of `cls` characters starting at `i` ends (what `accept` consumes). */
  function RunEnd(input: seq<char>, i: nat, cls: CharClass): (e: nat)
    requires i <= |input|
    ensures i <= e <= |input|
    ensures forall k :: i <= k < e ==> InClass(cls, input[k])
    ensures e == |input| || !InClass(cls, input[e])
    decreases |input| - i
  {
    if i == |input| || !InClass(cls, input[i]) then i else RunEnd(input, i + 1, cls)
  }

  predicate NewlineFrom(input: seq<char>, i: nat)
  {
    exists j :: i <= j < |input| && input[j] == '\n'
  }

  /**
   * The comment loop stops only at a newline: every `%` needs a later `\n`
   * (a `%` inside a comment is followed by that comment's newline, so this is
   * exactly the inputs on which `exec` terminates).
   */
  predicate CommentsEnd(input: seq<char>)
  {
    forall i :: 0 <= i < |input| && input[i] == '%' ==> NewlineFrom(input, i)
  }

  /** A newline at or after `i` is at `i` or at or after `i + 1`. */
  lemma NewlineFromNext(input: seq<char>, i: nat)
    requires NewlineFrom(input, i)
    ensures i < |input|
    ensures input[i] != '\n' ==> NewlineFrom(input, i + 1)
  {
    var j :| i <= j < |input| && input[j] == '\n';
    if input[i] != '\n' {
      assert i + 1 <= j;
    }
  }

  /** The first newline at or after `i`: where a comment stops. */
  function NextNewline(input: seq<char>, i: nat): (r: nat)
    requires NewlineFrom(input, i)
    ensures i <= r < |input| && input[r] == '\n'
    ensures forall k :: i <= k < r ==> input[k] != '\n'
    decreases |input| - i
  {
    NewlineFromNext(input, i);
    if input[i] == '\n' then i else NextNewline(input, i + 1)
  }

  /** `ident` followed by `(`, directly or after one character. */
  predicate FollowedByParen(input: seq<char>, e: int)
  {
    (0 <= e < |input| && input[e] == '(') || (0 <= e + 1 < |input| && input[e + 1] == '(')
  }

  /** After the integer part: a `.` and the digits after it, if a `.` follows. */
  function FractionEnd(input: seq<char>, a: nat): (b: nat)
    requires a <= |input|
    ensures a <= b <= |input|
  {
    if a < |input| && input[a] == '.' then RunEnd(input, a + 1, Digits) else a
  }

  /** After the fraction: `e` or `E`, an optional sign and digits, if `e` or `E` follows. */
  function ExponentEnd(input: seq<char>, b: nat): (e: nat)
    requires b <= |input|
    ensures b <= e <= |input|
  {
    if b < |input| && (input[b] == 'e' || input[b] == 'E') then
      RunEnd(input, if b + 1 < |input| && (input[b + 1] == '+' || input[b + 1] == '-') then b + 2 else b + 1, Digits)
    else b
  }

  /** Where a number starting at `i` ends: digits, then the fraction, then the exponent. */
  function NumberEnd(input: seq<char>, i: nat): (e: nat)
    requires i <= |input|
    ensures i <= e <= |input|
  {
    ExponentEnd(input, FractionEnd(input, RunEnd(input, i, Digits)))
  }

  // ---------------------------------------------------------------------------
  // One turn of the `exec` loop, and the loop.

  datatype LexState = LexState(current: nat, line: int, character: int, tokens: seq<Token>, errors: seq<CompileError>)

  /** A fresh `Lexer`: line 1, character 1, nothing emitted. */
  const Start: LexState := LexState(0, 1, 1, [], [])

  /** `newToken(kind, value)` at the current position, then move to `next`. */
  function Emit(s: LexState, kind: TokenKind, value: string, next: nat): LexState
  {
    s.(current := next, character := s.character + Utf16Length(value),
       tokens := s.tokens + [Token(kind, Position(s.line, s.character), value)])
  }

  const Unexpected := "Unexpected character."

  /** The scan of a token that is neither a reserved word nor a single-letter operator. */
  function StepWord(input: seq<char>, s: LexState): (t: LexState)
    requires s.current < |input|
  {
    var c := input[s.current];
    if IsVariableStart(c) then
      var e := RunEnd(input, s.current, VariableName);
      Emit(s, IdentVar, input[s.current..e], e)
    else if IsIdentStart(c) then
      var e := RunEnd(input, s.current, IdentNum);
      Emit(s, if FollowedByParen(input, e) then IdentFunc else AtomLit, input[s.current..e], e)
    else if IsDigit(c) then
      var e := NumberEnd(input, s.current);
      Emit(s, Number, input[s.current..e], e)
    else
      s.(current := s.current + 1, character := s.character + 1,
         errors := s.errors + [CompileError(Unexpected, Position(s.line, s.character))])
  }

  /** The scan of a token or of skipped text starting at a character that is not a newline, blank or `%`. */
  function StepToken(input: seq<char>, s: LexState): (t: LexState)
    requires s.current < |input|
  {
    match FirstPrefix(input, s.current, ReservedWords)
    case Some(k) => Emit(s, Reserved, ReservedWords[k], s.current + |ReservedWords[k]|)
    case None =>
      if FirstPrefix(input, s.current, SingleLetters).Some? then
        Emit(s, Reserved, [input[s.current]], s.current + 1)
      else StepWord(input, s)
  }

  /** One turn of the `exec` loop. */
  function Step(input: seq<char>, s: LexState): (t: LexState)
    requires s.current < |input| && CommentsEnd(input)
  {
    var c := input[s.current];
    if c == '\n' then s.(current := s.current + 1, line := s.line + 1, character := 1)
    else if IsWhitespace(c) then s.(current := s.current + 1, character := s.character + 1)
    else if c == '%' then s.(current := NextNewline(input, s.current))
    else StepToken(input, s)
  }

  /** Every reserved word is non-empty: a reserved match always moves on. */
  lemma ReservedNonEmpty(k: nat)
    requires k < |ReservedWords|
    ensures |ReservedWords[k]| > 0
  {
  }

  /** A word scan, a number scan or an error consumes at least one character. */
  lemma StepWordAdvances(input: seq<char>, s: LexState)
    requires s.current < |input|
    ensures s.current < StepWord(input, s).current <= |input|
  {
    var c := input[s.current];
    if IsVariableStart(c) {
      assert RunEnd(input, s.current, VariableName) > s.current;
    } else if IsIdentStart(c) {
      assert RunEnd(input, s.current, IdentNum) > s.current;
    } else if IsDigit(c) {
      assert RunEnd(input, s.current, Digits) > s.current;
    }
  }

  lemma StepTokenAdvances(input: seq<char>, s: LexState)
    requires s.current < |input|
    ensures s.current < StepToken(input, s).current <= |input|
  {
    match FirstPrefix(input, s.current, ReservedWords)
    case Some(k) => ReservedNonEmpty(k);
    case None =>
      if FirstPrefix(input, s.current, SingleLetters).None? {
        StepWordAdvances(input, s);
      }
  }

  /** Every turn of the loop consumes at least one character and stays within the input. */
  lemma StepAdvances(input: seq<char>, s: LexState)
    requires s.current < |input| && CommentsEnd(input)
    ensures s.current < Step(input, s).current <= |input|
  {
    var c := input[s.current];
    if c == '%' {
      assert NewlineFrom(input, s.current);
    } else if c != '\n' && !IsWhitespace(c) {
      StepTokenAdvances(input, s);
    }
  }

  /** The `while (current < input.length)` loop. */
  function Scan(input: seq<char>, s: LexState): LexState
    requires s.current <= |input| && CommentsEnd(input)
    decreases |input| - s.current
  {
    if s.current == |input| then s
    else
      StepAdvances(input, s);
      Scan(input, Step(input, s))
  }

  datatype LexResult = LexResult(tokens: seq<Token>, errors: seq<CompileError>)

  /** The EOF token appended at the position the loop ended at. */
  function Finish(s: LexState): LexResult
  {
    LexResult(s.tokens + [Token(Eof, Position(s.line, s.character), "")], s.errors)
  }

  /**
   * `tokenize(input)`: the loop, then the EOF token. When the input ends with a
   * newline the EOF column is one past the last token's; if no token was
   * emitted, reading that token's position throws.
   */
  function Lex(input: seq<char>): Result<LexResult>
    requires CommentsEnd(input)
  {
    Close(input, Scan(input, Start))
  }

  /** What follows the loop of `tokenize`, from the state the loop ended in. */
  function Close(input: seq<char>, s: LexState): Result<LexResult> {
    if |input| > 0 && input[|input| - 1] == '\n' then
      if s.tokens == [] then Throw("Cannot read properties of undefined (reading 'position')")
      else Ok(Finish(s.(character := s.tokens[|s.tokens| - 1].pos.character + 1)))
    else Ok(Finish(s))
  }

  // ---------------------------------------------------------------------------
  // The class.

  class Lexer {
    var input: seq<char>
    var current: int
    var line: int
    var character: int
    var errorList: seq<CompileError>
    var tokenList: seq<Token>

    function State(): LexState
      reads this
      requires current >= 0
    {
      LexState(current, line, character, tokenList, errorList)
    }

    predicate Fresh()
      reads this
    {
      current == 0 && line == 1 && character == 1 && errorList == [] && tokenList == []
    }

    constructor ()
      ensures Fresh() && input == []
    {
      input := [];
      current := 0;
      line := 1;
      character := 1;
      errorList := [];
      tokenList := [];
    }

    /** `getChar`. */
    function GetChar(): Option<char>
      reads this
    {
      CharAt(input, current)
    }

    /** `consumeChar`: the character at `current` (undefined past the end), then `current++`. */
    method ConsumeChar() returns (c: Option<char>)
      modifies this
      ensures c == CharAt(input, old(current)) && current == old(current) + 1
      ensures input == old(input) && line == old(line) && character == old(character)
      ensures tokenList == old(tokenList) && errorList == old(errorList)
    {
      c := GetChar();
      current := current + 1;
    }

    /** `newToken`: the token at (line, character); `character` moves by the value's length. */
    method NewToken(kind: TokenKind, val: string) returns (t: Token)
      modifies this
      ensures t == Token(kind, Position(line, old(character)), val)
      ensures character == old(character) + Utf16Length(val)
      ensures input == old(input) && current == old(current) && line == old(line)
      ensures tokenList == old(tokenList) && errorList == old(errorList)
    {
      t := Token(kind, Position(line, character), val);
      character := character + Utf16Length(val);
    }

    /** `getReserved`: the first word of the list the input at `current` starts with. */
    method GetReserved(words: seq<string>) returns (r: Option<string>)
      requires 0 <= current <= |input|
      ensures r == PrefixWord(input, current, words)
    {
      var n := 0;
      while n < |words|
        invariant 0 <= n <= |words|
        invariant FirstPrefixFrom(input, current, words, n) == FirstPrefix(input, current, words)
      {
        var w := words[n];
        var s := if current + |w| <= |input| then input[current..current + |w|] else input[current..];
        if s == w {
          return Some(w);
        }
        n := n + 1;
      }
      return None;
    }

    /** `accept(re)`: the maximal run of `re` characters at `current`, consumed. */
    method Accept(cls: CharClass) returns (val: string)
      requires 0 <= current <= |input|
      modifies this
      ensures input == old(input) && line == old(line) && character == old(character)
      ensures current == RunEnd(input, old(current), cls) && val == input[old(current)..current]
      ensures tokenList == old(tokenList) && errorList == old(errorList)
    {
      val := "";
      while GetChar().Some? && InClass(cls, GetChar().value)
        invariant old(current) <= current <= |input|
        invariant val == input[old(current)..current]
        invariant forall k :: old(current) <= k < current ==> InClass(cls, input[k])
        invariant input == old(input) && line == old(line) && character == old(character)
        invariant tokenList == old(tokenList) && errorList == old(errorList)
        decreases |input| - current
      {
        var c := ConsumeChar();
        val := val + [c.value];
      }
      RunEndIsFirstOutside(input, old(current), current, cls);
    }

    /** The number at `current`: integer part, then fraction, then exponent, concatenated. */
    method ScanNumber() returns (val: string)
      requires 0 <= current <= |input|
      modifies this
      ensures input == old(input) && line == old(line) && character == old(character)
      ensures current == NumberEnd(input, old(current)) && val == input[old(current)..current]
      ensures tokenList == old(tokenList) && errorList == old(errorList)
    {
      var start := current;
      var integerPart := Accept(Digits);
      ghost var a := current;
      var fractionalPart := ScanFraction();
      ghost var b := current;
      var exponentPart := ScanExponent();
      SliceJoin(input, start, a, b);
      SliceJoin(input, start, b, current);
      val := integerPart + fractionalPart + exponentPart;
    }

    /** The fractional part of a number: `.` and digits, or nothing. */
    method ScanFraction() returns (val: string)
      requires 0 <= current <= |input|
      modifies this
      ensures input == old(input) && line == old(line) && character == old(character)
      ensures current == FractionEnd(input, old(current)) && val == input[old(current)..current]
      ensures tokenList == old(tokenList) && errorList == old(errorList)
    {
      val := "";
      if GetChar() == Some('.') {
        var dot := ConsumeChar();
        var digits := Accept(Digits);
        val := "." + digits;
        SliceJoin(input, old(current), old(current) + 1, current);
      }
    }

    /** The exponent part of a number: `e` or `E`, an optional sign and digits, or nothing. */
    method ScanExponent() returns (val: string)
      requires 0 <= current <= |input|
      modifies this
      ensures input == old(input) && line == old(line) && character == old(character)
      ensures current == ExponentEnd(input, old(current)) && val == input[old(current)..current]
      ensures tokenList == old(tokenList) && errorList == old(errorList)
    {
      val := "";
      if GetChar() == Some('e') || GetChar() == Some('E') {
        var e := ConsumeChar();
        val := val + [e.value];
        if GetChar() == Some('+') || GetChar() == Some('-') {
          var sign := ConsumeChar();
          val := val + [sign.value];
        }
        ghost var b1 := current;
        assert val == input[old(current)..b1];
        var digits := Accept(Digits);
        val := val + digits;
        SliceJoin(input, old(current), b1, current);
      }
    }

    /** `exec`: scan the whole input, then append the EOF token. */
    method Exec(inp: seq<char>) returns (r: Result<LexResult>)
      requires Fresh() && CommentsEnd(inp)
      modifies this
      ensures r == Lex(inp)
    {
      input := inp;
      while current < |input|
        invariant 0 <= current <= |input| && input == inp
        invariant Scan(input, State()) == Scan(input, Start)
        decreases |input| - current
      {
        ghost var s := State();
        StepAdvances(input, s);
        ExecStep();
        assert State() == Step(input, s);
      }
      ghost var last := State();
      assert last == Scan(inp, Start);
      r := EndOfInput();
      assert r == Close(inp, last);
    }

    /** The end of `exec`, after its loop: the EOF token. */
    method EndOfInput() returns (r: Result<LexResult>)
      requires current >= 0
      modifies this
      ensures input == old(input) && r == Close(input, old(State()))
    {
      if |input| > 0 && input[|input| - 1] == '\n' {
        if tokenList == [] {
          return Throw("Cannot read properties of undefined (reading 'position')");
        }
        var lastToken := tokenList[|tokenList| - 1];
        character := lastToken.pos.character + 1;
      }
      var eof := NewToken(Eof, "");
      tokenList := tokenList + [eof];
      r := Ok(LexResult(tokenList, errorList));
    }

    /** The body of the `exec` loop. */
    method ExecStep()
      requires 0 <= current < |input| && CommentsEnd(input)
      modifies this
      ensures current >= 0 && input == old(input)
      ensures State() == Step(input, old(State()))
    {
      var c := input[current];
      if c == '\n' {
        line := line + 1;
        character := 1;
        current := current + 1;
        return;
      }
      if IsWhitespace(c) {
        var skipped := ConsumeChar();
        character := character + 1;
        return;
      }
      if c == '%' {
        assert NewlineFrom(input, current);
        ghost var target := NextNewline(input, current);
        while GetChar() != Some('\n')
          invariant old(current) <= current <= target
          invariant input == old(input) && line == old(line) && character == old(character)
          invariant tokenList == old(tokenList) && errorList == old(errorList)
          decreases target - current
        {
          var skipped := ConsumeChar();
        }
        return;
      }
      ExecToken();
    }

    /** The part of the loop body after the newline, blank and comment cases. */
    method ExecToken()
      requires 0 <= current < |input|
      modifies this
      ensures current >= 0 && input == old(input)
      ensures State() == StepToken(input, old(State()))
    {
      var reserved := GetReserved(ReservedWords);
      if reserved.Some? {
        var t := NewToken(Reserved, reserved.value);
        tokenList := tokenList + [t];
        current := current + |reserved.value|;
        return;
      }
      var singleLetter := GetReserved(SingleLetters);
      if singleLetter.Some? {
        var t := NewToken(Reserved, [input[current]]);
        tokenList := tokenList + [t];
        current := current + 1;
        return;
      }
      ExecWord();
    }

    /** Variables, identifiers, numbers, and the unexpected-character error. */
    method ExecWord()
      requires 0 <= current < |input|
      modifies this
      ensures current >= 0 && input == old(input)
      ensures State() == StepWord(input, old(State()))
    {
      var c := input[current];
      if IsVariableStart(c) {
        ExecVariable();
      } else if IsIdentStart(c) {
        ExecIdentifier();
      } else if IsDigit(c) {
        ExecNumber();
      } else {
        errorList := errorList + [CompileError(Unexpected, Position(line, character))];
        current := current + 1;
        character := character + 1;
      }
    }

    /** A variable: the run of `VARIABLE_NAME` characters becomes an IDENT_VAR token. */
    method ExecVariable()
      requires 0 <= current < |input| && IsVariableStart(input[current])
      modifies this
      ensures current >= 0 && input == old(input)
      ensures State() == StepWord(input, old(State()))
    {
      var val := Accept(VariableName);
      var t := NewToken(IdentVar, val);
      tokenList := tokenList + [t];
    }

    /** An identifier: IDENT_FUNC when `(` follows it directly or after one character, else ATOM_LIT. */
    method ExecIdentifier()
      requires 0 <= current < |input| && !IsVariableStart(input[current]) && IsIdentStart(input[current])
      modifies this
      ensures current >= 0 && input == old(input)
      ensures State() == StepWord(input, old(State()))
    {
      var val := Accept(IdentNum);
      var t;
      if GetChar() == Some('(') || CharAt(input, current + 1) == Some('(') {
        t := NewToken(IdentFunc, val);
      } else {
        t := NewToken(AtomLit, val);
      }
      tokenList := tokenList + [t];
    }

    /** A number: digits, fraction and exponent become a NUMBER token. */
    method ExecNumber()
      requires 0 <= current < |input| && !IsIdentStart(input[current]) && IsDigit(input[current])
      modifies this
      ensures current >= 0 && input == old(input)
      ensures State() == StepWord(input, old(State()))
    {
      var val := ScanNumber();
      var t := NewToken(Number, val);
      tokenList := tokenList + [t];
    }
  }

  lemma SliceJoin(s: seq<char>, i: nat, j: nat, k: nat)
    requires i <= j <= k <= |s|
    ensures s[i..j] + s[j..k] == s[i..k]
  {
  }

  /** The end of a run is its first character outside the class. */
  lemma {:induction false} RunEndIsFirstOutside(input: seq<char>, i: nat, e: nat, cls: CharClass)
    requires i <= e <= |input|
    requires forall k :: i <= k < e ==> InClass(cls, input[k])
    requires e == |input| || !InClass(cls, input[e])
    ensures RunEnd(input, i, cls) == e
    decreases e - i
  {
    if i < e {
      RunEndIsFirstOutside(input, i + 1, e, cls);
    }
  }
}
