/**
 * What the scanner of src/lib/compiler/lexer.ts promises about the tokens it
 * emits, stated over one turn of the loop (`Step`), the whole loop (`Scan`)
 * and `tokenize` (`Lex`).
 */
module LexerFacts {
  import opened Base
  import opened Syntax
  import opened Lexer

  /** The turn does not start at a newline, a blank or a comment: a token or an error is next. */
  predicate AtToken(input: seq<char>, i: nat)
    requires i < |input|
  {
    input[i] != '\n' && !IsWhitespace(input[i]) && input[i] != '%'
  }

  /** No reserved word and no single-letter operator starts at `i`. */
  predicate NoTableWord(input: seq<char>, i: nat)
  {
    FirstPrefix(input, i, ReservedWords).None? && FirstPrefix(input, i, SingleLetters).None?
  }

  /** A character no rule of the scanner accepts. */
  predicate Unrecognised(input: seq<char>, i: nat)
    requires i < |input|
  {
    AtToken(input, i) && NoTableWord(input, i) && !IsIdentStart(input[i]) && !IsDigit(input[i])
  }

  /**
   * The turn from `s` to `t` appended exactly one token, whose value is the
   * text it consumed, whose position is where the turn started, and after
   * which the column has moved by the token's length in UTF-16 code units.
   */
  predicate Lexeme(input: seq<char>, s: LexState, t: LexState)
  {
    s.current <= t.current <= |input|
    && |t.tokens| == |s.tokens| + 1 && t.tokens[..|s.tokens|] == s.tokens
    && t.tokens[|s.tokens|].kind != Eof
    && t.tokens[|s.tokens|].pos == Position(s.line, s.character)
    && t.tokens[|s.tokens|].value == input[s.current..t.current]
    && t.line == s.line && t.character == s.character + Utf16Length(input[s.current..t.current])
    && t.errors == s.errors
  }

  // ---------------------------------------------------------------------------
  // One turn of the loop.

  /** A newline moves to column 1 of the next line and emits nothing. */
  lemma StepNewline(input: seq<char>, s: LexState)
    requires s.current < |input| && CommentsEnd(input) && input[s.current] == '\n'
    ensures var t := Step(input, s);
      t.tokens == s.tokens && t.errors == s.errors
      && t.line == s.line + 1 && t.character == 1 && t.current == s.current + 1
  {
  }

  /** A token turn always emits a token that spells the text it consumed. */
  lemma StepWordLexeme(input: seq<char>, s: LexState)
    requires s.current < |input| && !Unrecognised(input, s.current) && AtToken(input, s.current)
    requires NoTableWord(input, s.current)
    ensures Lexeme(input, s, StepWord(input, s))
  {
  }

  lemma StepTokenLexeme(input: seq<char>, s: LexState)
    requires s.current < |input| && AtToken(input, s.current) && !Unrecognised(input, s.current)
    ensures Lexeme(input, s, StepToken(input, s))
  {
    match FirstPrefix(input, s.current, ReservedWords)
    case Some(k) =>
      assert PrefixAt(input, s.current, ReservedWords[k]);
    case None =>
      match FirstPrefix(input, s.current, SingleLetters)
      case Some(k) =>
        assert input[s.current..s.current + 1] == [input[s.current]];
      case None =>
        StepWordLexeme(input, s);
  }

  /**
   * Every turn either emits nothing, or emits one token positioned at its
   * first character and spelling the consumed text; only an unrecognised
   * character adds an error, and then it is one "Unexpected character." at
   * that character's position, which is skipped.
   */
  lemma StepOutcome(input: seq<char>, s: LexState)
    requires s.current < |input| && CommentsEnd(input)
    ensures var t := Step(input, s);
      (t.tokens == s.tokens || Lexeme(input, s, t))
      && (t.errors != s.errors <==> Unrecognised(input, s.current))
      && (Unrecognised(input, s.current) ==>
            t == s.(current := s.current + 1, character := s.character + 1,
                    errors := s.errors + [CompileError(Unexpected, Position(s.line, s.character))]))
  {
    if AtToken(input, s.current) && !Unrecognised(input, s.current) {
      StepTokenLexeme(input, s);
    }
  }

  /**
   * Reserved words win over every other rule, and among them the first entry
   * of the table that the input starts with is taken.
   */
  lemma StepReserved(input: seq<char>, s: LexState, k: nat)
    requires s.current < |input| && CommentsEnd(input) && AtToken(input, s.current)
    requires k < |ReservedWords| && PrefixAt(input, s.current, ReservedWords[k])
    ensures var t := Step(input, s);
      exists j :: 0 <= j <= k && (forall i :: 0 <= i < j ==> !PrefixAt(input, s.current, ReservedWords[i]))
        && Lexeme(input, s, t) && t.tokens[|s.tokens|] == Token(Reserved, Position(s.line, s.character), ReservedWords[j])
  {
    var j := FirstPrefix(input, s.current, ReservedWords).value;
    StepOutcome(input, s);
    assert j <= k;
  }

  /** A name starting with `A`-`Z` or `_` is the maximal run of name characters, an IDENT_VAR. */
  lemma StepVariable(input: seq<char>, s: LexState)
    requires s.current < |input| && CommentsEnd(input) && AtToken(input, s.current)
    requires NoTableWord(input, s.current) && IsVariableStart(input[s.current])
    ensures var t := Step(input, s);
      Lexeme(input, s, t) && t.tokens[|s.tokens|].kind == IdentVar
      && s.current < t.current
      && (forall i :: s.current <= i < t.current ==> IsVariableChar(input[i]))
      && (t.current == |input| || !IsVariableChar(input[t.current]))
  {
    StepOutcome(input, s);
  }

  /**
   * A name starting with a lower-case letter is the maximal run of `[a-zA-Z0-9_]`;
   * it is an IDENT_FUNC exactly when `(` is the next or the next-but-one character.
   */
  lemma StepIdentifier(input: seq<char>, s: LexState)
    requires s.current < |input| && CommentsEnd(input) && AtToken(input, s.current)
    requires NoTableWord(input, s.current) && IsLower(input[s.current])
    ensures var t := Step(input, s);
      Lexeme(input, s, t) && s.current < t.current
      && (t.tokens[|s.tokens|].kind == IdentFunc <==> FollowedByParen(input, t.current))
      && (t.tokens[|s.tokens|].kind == AtomLit <==> !FollowedByParen(input, t.current))
      && (forall i :: s.current <= i < t.current ==> IsIdentChar(input[i]))
      && (t.current == |input| || !IsIdentChar(input[t.current]))
  {
    StepOutcome(input, s);
  }

  predicate AllDigits(v: string)
  {
    forall i :: 0 <= i < |v| ==> IsDigit(v[i])
  }

  /** `.` and digits, or nothing. */
  predicate FractionShape(f: string)
  {
    f == [] || (f[0] == '.' && AllDigits(f[1..]))
  }

  /** `e` or `E`, an optional sign, digits; or nothing. */
  predicate ExponentShape(x: string)
  {
    x == []
    || ((x[0] == 'e' || x[0] == 'E')
        && (AllDigits(x[1..]) || (|x| >= 2 && (x[1] == '+' || x[1] == '-') && AllDigits(x[2..]))))
  }

  /** A number lexeme: a non-empty digit run, a fraction and an exponent, in that order. */
  predicate NumberShape(v: string)
  {
    exists a, b :: 0 < a <= b <= |v| && AllDigits(v[..a]) && FractionShape(v[a..b]) && ExponentShape(v[b..])
  }

  /** The text `FractionEnd` consumes is a fraction. */
  lemma FractionEndShape(input: seq<char>, a: nat)
    requires a <= |input|
    ensures FractionShape(input[a..FractionEnd(input, a)])
  {
    var b := FractionEnd(input, a);
    if b > a {
      assert input[a..b][1..] == input[a + 1..b];
    }
  }

  /** The text `ExponentEnd` consumes is an exponent. */
  lemma ExponentEndShape(input: seq<char>, b: nat)
    requires b <= |input|
    ensures ExponentShape(input[b..ExponentEnd(input, b)])
  {
    var e := ExponentEnd(input, b);
    if e > b {
      assert input[b..e][1..] == input[b + 1..e];
      if b + 1 < |input| && (input[b + 1] == '+' || input[b + 1] == '-') {
        assert input[b..e][2..] == input[b + 2..e];
      }
    }
  }

  /** The text between a number's start and `NumberEnd` has the shape of a number. */
  lemma NumberEndShape(input: seq<char>, i: nat)
    requires i < |input| && IsDigit(input[i])
    ensures NumberShape(input[i..NumberEnd(input, i)])
  {
    var a := RunEnd(input, i, Digits);
    var b := FractionEnd(input, a);
    var e := NumberEnd(input, i);
    var v := input[i..e];
    FractionEndShape(input, a);
    ExponentEndShape(input, b);
    assert a > i by {
      assert InClass(Digits, input[i]);
    }
    assert AllDigits(input[i..a]) by {
      forall k | 0 <= k < a - i
        ensures IsDigit(input[i..a][k])
      {
        assert InClass(Digits, input[i + k]);
      }
    }
    SliceOfSlice(input, i, e, i, a);
    SliceOfSlice(input, i, e, a, b);
    SliceOfSlice(input, i, e, b, e);
    assert v[..a - i] == v[0..a - i] && v[b - i..] == v[b - i..e - i];
    assert AllDigits(v[..a - i]) && FractionShape(v[a - i..b - i]) && ExponentShape(v[b - i..]);
  }

  /** A slice of a slice is a slice of the whole. */
  lemma SliceOfSlice(input: seq<char>, i: nat, e: nat, p: nat, q: nat)
    requires i <= p <= q <= e <= |input|
    ensures input[i..e][p - i..q - i] == input[p..q]
  {
    var w := input[i..e][p - i..q - i];
    assert |w| == q - p;
    forall k | 0 <= k < q - p
      ensures w[k] == input[p..q][k]
    {
      assert w[k] == input[i..e][p - i + k] == input[i + (p - i + k)];
    }
  }

  /** A digit starts a NUMBER token that runs to `NumberEnd` and has the shape of a number. */
  lemma StepNumber(input: seq<char>, s: LexState)
    requires s.current < |input| && CommentsEnd(input) && AtToken(input, s.current)
    requires NoTableWord(input, s.current) && IsDigit(input[s.current])
    ensures var t := Step(input, s);
      Lexeme(input, s, t) && t.tokens[|s.tokens|].kind == Number
      && t.current == NumberEnd(input, s.current)
      && NumberShape(t.tokens[|s.tokens|].value)
  {
    StepOutcome(input, s);
    NumberEndShape(input, s.current);
  }

  // ---------------------------------------------------------------------------
  // The whole loop and `tokenize`.

  predicate NoEof(tokens: seq<Token>)
  {
    forall k :: 0 <= k < |tokens| ==> tokens[k].kind != Eof
  }

  /** The loop only appends, and never appends an EOF token. */
  lemma {:induction false} ScanExtends(input: seq<char>, s: LexState)
    requires s.current <= |input| && CommentsEnd(input)
    ensures var t := Scan(input, s);
      |s.tokens| <= |t.tokens| && t.tokens[..|s.tokens|] == s.tokens
      && |s.errors| <= |t.errors| && t.errors[..|s.errors|] == s.errors
      && (NoEof(s.tokens) ==> NoEof(t.tokens))
    decreases |input| - s.current
  {
    if s.current < |input| {
      var u := Step(input, s);
      StepAdvances(input, s);
      StepOutcome(input, s);
      ScanExtends(input, u);
      var t := Scan(input, s);
      assert t == Scan(input, u);
      assert t.tokens[..|s.tokens|] == t.tokens[..|u.tokens|][..|s.tokens|];
      assert t.errors[..|s.errors|] == t.errors[..|u.errors|][..|s.errors|];
      if NoEof(s.tokens) {
        assert NoEof(u.tokens) by {
          if u.tokens != s.tokens {
            forall k | 0 <= k < |u.tokens|
              ensures u.tokens[k].kind != Eof
            {
              if k < |s.tokens| {
                assert u.tokens[k] == u.tokens[..|s.tokens|][k];
              }
            }
          }
        }
      }
    }
  }

  /** `tokenize` fails exactly when the input ends with a newline and no token was scanned. */
  lemma LexThrows(input: seq<char>)
    requires CommentsEnd(input)
    ensures Lex(input).Throw? <==> |input| > 0 && input[|input| - 1] == '\n' && Scan(input, Start).tokens == []
  {
    var s := Scan(input, Start);
    if |input| > 0 && input[|input| - 1] == '\n' && s.tokens != [] {
      assert Lex(input).Ok?;
    }
  }

  /** The token list of `tokenize` ends with its only EOF token, whose value is empty. */
  lemma LexEndsWithEof(input: seq<char>)
    requires CommentsEnd(input) && Lex(input).Ok?
    ensures var ts := Lex(input).value.tokens;
      |ts| > 0 && ts[|ts| - 1].kind == Eof && ts[|ts| - 1].value == ""
      && NoEof(ts[..|ts| - 1])
  {
    ScanExtends(input, Start);
    var s := Scan(input, Start);
    var ts := Lex(input).value.tokens;
    assert ts[..|ts| - 1] == s.tokens;
  }

  lemma ReservedNoNewline(k: nat, i: nat)
    requires k < |ReservedWords| && i < |ReservedWords[k]|
    ensures ReservedWords[k][i] != '\n'
  {
  }

  lemma SingleNoNewline(k: nat)
    requires k < |SingleLetters|
    ensures |SingleLetters[k]| == 1 && SingleLetters[k][0] != '\n'
  {
  }

  lemma ClassNoNewline(cls: CharClass)
    ensures !InClass(cls, '\n')
  {
  }

  /** A word, number or error turn consumes no newline and keeps the line. */
  lemma StepWordLines(input: seq<char>, s: LexState)
    requires s.current < |input| && input[s.current] != '\n'
    ensures s.current < StepWord(input, s).current <= |input|
    ensures StepWord(input, s).line == s.line
    ensures forall i :: s.current <= i < StepWord(input, s).current ==> input[i] != '\n'
  {
    StepWordAdvances(input, s);
    var c := input[s.current];
    if IsVariableStart(c) {
      ClassNoNewline(VariableName);
    } else if IsIdentStart(c) {
      ClassNoNewline(IdentNum);
    } else if IsDigit(c) {
      assert StepWord(input, s).current == NumberEnd(input, s.current);
      NumberNoNewline(input, s.current);
    }
  }

  /** The text a reserved word matches holds no newline. */
  lemma ReservedText(input: seq<char>, i: nat, k: nat)
    requires k < |ReservedWords| && PrefixAt(input, i, ReservedWords[k])
    ensures forall j :: i <= j < i + |ReservedWords[k]| ==> input[j] != '\n'
  {
    forall j | i <= j < i + |ReservedWords[k]|
      ensures input[j] != '\n'
    {
      assert input[j] == input[i..i + |ReservedWords[k]|][j - i];
      ReservedNoNewline(k, j - i);
    }
  }

  /** The part of `StepTokenLines` where a reserved word matches. */
  lemma ReservedLines(input: seq<char>, s: LexState, k: nat)
    requires s.current < |input| && FirstPrefix(input, s.current, ReservedWords) == Some(k)
    ensures StepToken(input, s).line == s.line
    ensures forall i :: s.current <= i < StepToken(input, s).current ==> input[i] != '\n'
  {
    assert StepToken(input, s) == Emit(s, Reserved, ReservedWords[k], s.current + |ReservedWords[k]|);
    ReservedText(input, s.current, k);
  }

  /** The part of `StepTokenLines` where a single-letter operator matches. */
  lemma SingleLines(input: seq<char>, s: LexState, k: nat)
    requires s.current < |input| && FirstPrefix(input, s.current, ReservedWords).None?
    requires FirstPrefix(input, s.current, SingleLetters) == Some(k)
    ensures StepToken(input, s).line == s.line
    ensures forall i :: s.current <= i < StepToken(input, s).current ==> input[i] != '\n'
  {
    SingleNoNewline(k);
    var w := SingleLetters[k];
    assert input[s.current..s.current + 1] == w;
    assert input[s.current] == w[0];
    var t := StepToken(input, s);
    assert t == Emit(s, Reserved, [input[s.current]], s.current + 1);
    forall i | s.current <= i < t.current
      ensures input[i] != '\n'
    {
      assert i == s.current;
    }
  }

  /** A token or error turn consumes no newline and keeps the line. */
  lemma StepTokenLines(input: seq<char>, s: LexState)
    requires s.current < |input| && input[s.current] != '\n'
    ensures s.current < StepToken(input, s).current <= |input|
    ensures StepToken(input, s).line == s.line
    ensures forall i :: s.current <= i < StepToken(input, s).current ==> input[i] != '\n'
  {
    StepTokenAdvances(input, s);
    match FirstPrefix(input, s.current, ReservedWords)
    case Some(k) =>
      ReservedLines(input, s, k);
    case None =>
      match FirstPrefix(input, s.current, SingleLetters)
      case Some(k) =>
        SingleLines(input, s, k);
      case None =>
        assert StepToken(input, s) == StepWord(input, s);
        StepWordLines(input, s);
  }

  /** One turn moves the line counter by the number of newlines it consumed. */
  lemma StepLines(input: seq<char>, s: LexState)
    requires s.current < |input| && CommentsEnd(input)
    ensures s.current < Step(input, s).current <= |input|
    ensures Step(input, s).line == s.line + Newlines(input[s.current..Step(input, s).current])
  {
    StepAdvances(input, s);
    var t := Step(input, s);
    var c := input[s.current];
    if c == '\n' || IsWhitespace(c) {
      assert input[s.current..t.current] == [c];
    } else if c == '%' {
      assert NewlineFrom(input, s.current);
      NoNewlines(input[s.current..t.current]);
    } else {
      assert t == StepToken(input, s);
      StepTokenLines(input, s);
      NoNewlines(input[s.current..t.current]);
    }
  }

  /** A number lexeme holds no newline. */
  lemma NumberNoNewline(input: seq<char>, i: nat)
    requires i < |input|
    ensures forall k :: i <= k < NumberEnd(input, i) ==> input[k] != '\n'
  {
    var a := RunEnd(input, i, Digits);
    var b := FractionEnd(input, a);
    var e := NumberEnd(input, i);
    forall k | i <= k < e
      ensures input[k] != '\n'
    {
      if k >= b && b + 1 < |input| && (input[b + 1] == '+' || input[b + 1] == '-') {
        assert k == b || k == b + 1 || k >= b + 2;
      }
    }
  }

  /** The loop's line counter ends at its start plus the number of newlines in the rest of the input. */
  lemma {:induction false} ScanLines(input: seq<char>, s: LexState)
    requires s.current <= |input| && CommentsEnd(input)
    ensures Scan(input, s).line == s.line + Newlines(input[s.current..])
    decreases |input| - s.current
  {
    if s.current < |input| {
      var t := Step(input, s);
      StepLines(input, s);
      ScanStep(input, s);
      ScanLines(input, t);
      SuffixSplit(input, s.current, t.current);
      NewlinesJoin(input[s.current..t.current], input[t.current..]);
    }
  }

  // The script classes follow Scripts.txt rather than whole Unicode blocks.

  /** The voiced sound mark U+309B sits in the Hiragana block but is Common. */
  lemma SoundMarkIsNoLetter()
    ensures !IsScriptLetter('\U{309B}')
  {
    NotScriptLetter('\U{309B}');
  }

  /** The Greek question mark U+037E sits in the Greek block but is Common. */
  lemma GreekQuestionMarkIsNoLetter()
    ensures !IsScriptLetter('\U{037E}')
  {
    NotScriptLetter('\U{037E}');
  }

  /** U+03E2 sits in the Greek block but is a Coptic letter. */
  lemma CopticIsNoLetter()
    ensures !IsScriptLetter('\U{03E2}')
  {
    NotScriptLetter('\U{03E2}');
  }

  /** The Suzhou numeral U+3038 and U+30000, outside the main ideograph blocks, are Han. */
  lemma HanOutsideMainBlocks()
    ensures IsScriptLetter('\U{3038}') && IsScriptLetter('\U{30000}')
  {
    InsideScriptRange('\U{3038}', 26, 0);
    InsideScriptRange('\U{30000}', 40, 0);
  }

  /** A character that no range of the table holds is no script letter. */
  lemma NotScriptLetter(c: char)
    requires forall k :: 0 <= k < ScriptRanges ==> !(ScriptRange(k).0 <= c <= ScriptRange(k).1)
    ensures !IsScriptLetter(c)
  {
    OutsideScriptRanges(c, 0);
  }

  /** A character in range `k` is in the ranges from any `j` up to `k`. */
  lemma {:induction false} InsideScriptRange(c: char, k: nat, j: nat)
    requires j <= k < ScriptRanges && ScriptRange(k).0 <= c <= ScriptRange(k).1
    ensures InScriptRanges(c, j)
    decreases k - j
  {
    if j < k {
      InsideScriptRange(c, k, j + 1);
    }
  }

  /** A character outside every range from `j` on is not in them. */
  lemma {:induction false} OutsideScriptRanges(c: char, j: nat)
    requires j <= ScriptRanges
    requires forall k :: j <= k < ScriptRanges ==> !(ScriptRange(k).0 <= c <= ScriptRange(k).1)
    ensures !InScriptRanges(c, j)
    decreases ScriptRanges - j
  {
    if j < ScriptRanges {
      OutsideScriptRanges(c, j + 1);
    }
  }

  /** A suffix is the slice up to a later index followed by the suffix from there. */
  lemma SuffixSplit(input: seq<char>, i: nat, j: nat)
    requires i <= j <= |input|
    ensures input[i..] == input[i..j] + input[j..]
  {
  }

  /** One turn of the loop, then the rest of it. */
  lemma ScanStep(input: seq<char>, s: LexState)
    requires s.current < |input| && CommentsEnd(input)
    ensures Step(input, s).current <= |input|
    ensures Scan(input, s) == Scan(input, Step(input, s))
  {
    StepAdvances(input, s);
  }

  /** A word that differs from the input at one of its positions is not a prefix there. */
  lemma Mismatch(input: seq<char>, i: nat, w: string, p: nat)
    requires p < |w| && i + p < |input| && input[i + p] != w[p]
    ensures !PrefixAt(input, i, w)
  {
    if i + |w| <= |input| {
      assert input[i..i + |w|][p] != w[p];
    }
  }

  /** A table entry that is not a prefix is passed over. */
  lemma PassOver(input: seq<char>, i: nat, words: seq<string>, n: nat)
    requires n < |words| && !PrefixAt(input, i, words[n])
    ensures FirstPrefixFrom(input, i, words, n) == FirstPrefixFrom(input, i, words, n + 1)
  {
  }

  /**
   * `format` starts with the keyword `for`, the seventh entry of the table, so
   * its first turn emits the reserved word `for` rather than an atom.
   */
  lemma ReservedPrefixOfAtom()
    ensures CommentsEnd("format")
    ensures Step("format", Start) == LexState(3, 1, 4, [Token(Reserved, Position(1, 1), "for")], [])
  {
    var input := "format";
    assert PrefixAt(input, 0, ReservedWords[6]);
    Mismatch(input, 0, ReservedWords[5], 0);
    PassOver(input, 0, ReservedWords, 5);
    Mismatch(input, 0, ReservedWords[4], 0);
    PassOver(input, 0, ReservedWords, 4);
    Mismatch(input, 0, ReservedWords[3], 0);
    PassOver(input, 0, ReservedWords, 3);
    Mismatch(input, 0, ReservedWords[2], 0);
    PassOver(input, 0, ReservedWords, 2);
    Mismatch(input, 0, ReservedWords[1], 1);
    PassOver(input, 0, ReservedWords, 1);
    Mismatch(input, 0, ReservedWords[0], 0);
    PassOver(input, 0, ReservedWords, 0);
    assert FirstPrefix(input, 0, ReservedWords) == Some(6);
  }
}
