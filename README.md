# A verified model of the test-run-dsp-in-browser compiler and runtime

The repository compiles a small declarative language to TypeScript. A program
is a list of modules. Each module has parameters (atoms naming modules, and
vectors of typed variables) and method blocks. A method block holds
statements: `test`, `when`, `call`, and assignments whose right-hand side is an
expression, `for(from, to, step)` or `select(list)`. The compiler lexes,
parses, schedules and lowers the program. The generated code drives a small
backtracking runtime: a `VM` with a choice-point stack, and `Predicate`
goals whose `exec` returns the next goal.

This project is a Dafny model of that compiler and runtime. Every model module
follows one source file.

**Compiler** (`src/lib/compiler`)

- `lexer.dfy` (module `Lexer`): the scanner class. Its loop is proved to compute
  the function `Lex`. `lexer_facts.dfy` states what the tokens are: positions,
  reserved-word prefixes, identifiers, numbers, newlines, the single EOF token
  and the error for an unexpected character.
- `grammar.dfy` (module `Grammar`): a functional statement of the recursive-descent
  parser over a record of its fields. `parser.dfy` (module `Parser`) is the
  parser class itself: its cursor, scopes, local lists, vector-parameter counter
  and error list are mutable fields. Each of its methods is proved to agree with
  the matching `Grammar` function, crash included; a crash is the `TypeError`
  the source raises when it reads past the last token. `grammar_facts.dfy`
  proves the precedence ladder and the associativity of each level, how
  references are typed and declared, which vector parameters are marked input,
  and how a block's guard is taken.
- `sort_stmt.dfy` (module `SortStmt`): the statement scheduler. It covers
  classification, dependency resolution, block merging and the in-place merge
  of computations into constraints.
- `converter.dfy` (module `Converter`): the lowering pass. Its one piece of
  state is the never-reset parameter list, a field of class `ASTConverter`.
- `code_gen.dfy` (module `CodeGen`): the code generator with its output buffer.
- `utils.dfy` (module `Utils`): input normalisation, line numbering and the text
  of an error report.
- `pipeline.dfy` (module `Pipeline`): `compile` and `compiler`, with the
  module-level error list.
- `syntax.dfy` and `lowered.dfy` transcribe the type declarations of the two
  trees. `base.dfy` holds shared pieces: outcomes, decimal printing and the
  quoting done by `JSON.stringify`.

**Runtime** (`src/module`)

- `vm.dfy`: the choice-point stack.
- `heap.dfy`: the cells and method-instance counters the goals update.
- `engine.dfy`: `call`, `redo` and the loop of a generated `main`.
- One file per runtime class: `predicate.dfy`, `variable.dfy`, `list.dfy`,
  `object.dfy`, `for.dfy`, `member.dfy`, `case.dfy` and `test.dfy`.
- `sample.dfy`: the hand-written `ForClass` of `src/module/sample.ts`.

`enumeration.dfy` and `samplemain.dfy` prove what these goals enumerate under
`call`/`redo`:

- A `For` goal yields from, from+step, … up to `to`.
- A `Member` goal yields the list's elements in order.
- The sample's `main` records N = B, B+S, … up to E.
- Two nested `For` goals record only two of their four pairs. The retry unit
  pops once more after `redo` has popped it, which discards the outer choice
  point.

Behaviour is modelled as the code does it, including where it surprises:

- `Test.exec` always leaves false in its result cell.
- The guard of a block is removed by dropping the block's first statement
  node, even when that node is a dummy and not the `when`.
- `collectVariables` keeps duplicates.
- Of several constraints on the same variable only the first is scheduled:
  `mergeBlocks` finds the constraint of each paired computation with `find`.
- Only the first vector parameter a parser reads marks its members as inputs.
- The error list of `main.ts` is never cleared.

Divergence in the source is modelled as an outcome, not as a precondition:

- The lexer's comment loop never ends on a `%` with no later newline.
- `margeCalcTest` never ends on some inputs (see Findings).

The scheduler's dependency walk recurses; its depth is bounded by a `fuel`
parameter, and running out of it is the stack overflow, reported as
`Throws("Maximum call stack size exceeded")`.

## Model

| member | source | states |
|---|---|---|
| Lexer.CharAt | src/lib/compiler/lexer.ts:34-36 | the character at an index exists exactly inside the input and is the input's character there |
| Lexer.FirstPrefixFrom | src/lib/compiler/lexer.ts:63-72 | the index found is the first table entry the input starts with; none found means no entry from there on matches |
| Lexer.RunEnd | src/lib/compiler/lexer.ts:79-85 | the run consumed by `accept` is maximal: every character in it is in the class and the one after it is not |
| Lexer.RunEndIsFirstOutside | src/lib/compiler/lexer.ts:79-85 | any end whose run is in the class and whose next character is outside it is the end `accept` stops at |
| Lexer.NextNewline | src/lib/compiler/lexer.ts:112-115 | a comment stops at the first newline after the `%`, which exists whenever every comment is followed by a newline |
| Lexer.FractionEnd | src/lib/compiler/lexer.ts:157-161 | the fraction of a number stays within the input after the integer part |
| Lexer.ExponentEnd | src/lib/compiler/lexer.ts:162-170 | the exponent of a number stays within the input after the fraction |
| Lexer.NumberEnd | src/lib/compiler/lexer.ts:154-176 | a number scan ends within the input, at or after its start |
| Lexer.ReservedNonEmpty | src/lib/compiler/lexer.ts:219-246 | no keyword or operator in the reserved table is empty, so a reserved match consumes input |
| Lexer.StepWordAdvances | src/lib/compiler/lexer.ts:135-184 | a name, number or error turn of the loop consumes at least one character and stays in the input |
| Lexer.StepTokenAdvances | src/lib/compiler/lexer.ts:119-184 | a reserved, single-letter, name, number or error turn consumes at least one character |
| Lexer.StepAdvances | src/lib/compiler/lexer.ts:95-185 | every turn of the `exec` loop moves `current` forward within the input (the loop's termination measure) |
| Lexer.ScriptRange | src/lib/compiler/lexer.ts:211-212 | every range of the Hiragana, Katakana, Han and Greek table is non-empty and lies above ASCII |
| Lexer.InScriptRanges | src/lib/compiler/lexer.ts:211-212 | a character in any of the script ranges from a given one on is not ASCII |
| Lexer.IsScriptLetter | src/lib/compiler/lexer.ts:211-212 | `\p{Script=...}` for the four scripts: no script letter is ASCII, so on ASCII input `VARIABLE_NAME` is letters, digits and `_` |
| Lexer.Lexer.constructor | src/lib/compiler/lexer.ts:16-28 | a new lexer is at line 1, column 1, index 0, with no tokens and no errors |
| Lexer.Lexer.ConsumeChar | src/lib/compiler/lexer.ts:42-44 | returns the character at `current` (nothing past the end) and advances `current` by one, nothing else changes |
| Base.Utf16Length | src/lib/compiler/lexer.ts:54 | `value.length` counts UTF-16 code units: between one and two per character, exactly one each when no character lies beyond U+FFFF |
| Lexer.Lexer.NewToken | src/lib/compiler/lexer.ts:52-56 | the token is positioned at the current line and column; the column then advances by the value's length in UTF-16 code units |
| Lexer.Lexer.GetReserved | src/lib/compiler/lexer.ts:63-72 | returns the first word of the list that the input at `current` starts with, or nothing |
| Lexer.Lexer.Accept | src/lib/compiler/lexer.ts:79-85 | consumes exactly the maximal run of the class and returns the consumed text |
| Lexer.Lexer.ScanNumber | src/lib/compiler/lexer.ts:154-176 | consumes digits, fraction and exponent up to `NumberEnd` and returns that text |
| Lexer.Lexer.ScanFraction | src/lib/compiler/lexer.ts:157-161 | consumes a `.` and its digits when a `.` follows, and returns that text |
| Lexer.Lexer.ScanExponent | src/lib/compiler/lexer.ts:162-170 | consumes `e`/`E`, an optional sign and digits when `e`/`E` follows, and returns that text |
| Lexer.Lexer.Exec | src/lib/compiler/lexer.ts:92-203 | the imperative loop computes exactly `Lex` of its input: the scanned tokens, the EOF token and the errors |
| Lexer.Lexer.EndOfInput | src/lib/compiler/lexer.ts:187-202 | after the loop: the EOF column is one past the last token's when the input ends with a newline, and reading a missing last token throws |
| Lexer.Lexer.ExecStep | src/lib/compiler/lexer.ts:96-184 | one turn of the loop body is the specification's `Step` (newline, blank, comment, then token rules) |
| Lexer.Lexer.ExecToken | src/lib/compiler/lexer.ts:119-184 | the token rules in their order: reserved words, single letters, names, numbers, then the error |
| Lexer.Lexer.ExecWord | src/lib/compiler/lexer.ts:135-184 | variables, identifiers, numbers and the unexpected-character error |
| Lexer.Lexer.ExecVariable | src/lib/compiler/lexer.ts:135-140 | a variable turn is the specification's `StepWord`: the maximal `VARIABLE_NAME` run becomes an IDENT_VAR token |
| Lexer.Lexer.ExecIdentifier | src/lib/compiler/lexer.ts:142-151 | an identifier turn is `StepWord`: the maximal `IDENT_NUM` run becomes IDENT_FUNC when `(` follows directly or one character later, else ATOM |
| Lexer.Lexer.ExecNumber | src/lib/compiler/lexer.ts:153-176 | a number turn is `StepWord`: integer part, fraction and exponent become one NUMBER token |
| LexerFacts.StepNewline | src/lib/compiler/lexer.ts:97-102 | a newline increments the line, resets the column to 1 and emits no token |
| LexerFacts.StepWordLexeme | src/lib/compiler/lexer.ts:135-176 | a name or number turn emits one token at its first character that spells the consumed text |
| LexerFacts.StepTokenLexeme | src/lib/compiler/lexer.ts:119-176 | every token turn emits one token at its first character that spells the consumed text |
| LexerFacts.StepOutcome | src/lib/compiler/lexer.ts:95-185 | a turn emits nothing or one positioned token; only an unrecognised character adds exactly one "Unexpected character." error at its position and is skipped |
| LexerFacts.StepReserved | src/lib/compiler/lexer.ts:119-126 | when some reserved entry matches, the first matching entry of the keyword-and-operator table becomes a RESERVED token |
| LexerFacts.StepVariable | src/lib/compiler/lexer.ts:136-140 | an upper-case or `_` start gives an IDENT_VAR token over the maximal run of name characters |
| LexerFacts.StepIdentifier | src/lib/compiler/lexer.ts:143-151 | a lower-case start gives the maximal run of `[a-zA-Z0-9_]`, an IDENT_FUNC exactly when `(` is the next or next-but-one character, otherwise an ATOM |
| LexerFacts.FractionEndShape | src/lib/compiler/lexer.ts:157-160 | the fraction scan consumes nothing, or `.` followed only by digits |
| LexerFacts.ExponentEndShape | src/lib/compiler/lexer.ts:162-168 | the exponent scan consumes nothing, or `e`/`E`, an optional sign and only digits |
| LexerFacts.NumberEndShape | src/lib/compiler/lexer.ts:154-176 | the text of a number is digits, then optionally `.` and digits, then optionally an exponent with an optional sign |
| LexerFacts.StepNumber | src/lib/compiler/lexer.ts:154-176 | a digit start gives a NUMBER token running to `NumberEnd` whose text has the shape of a number |
| LexerFacts.ScanExtends | src/lib/compiler/lexer.ts:95-185 | the loop only appends tokens and errors and never emits an EOF token |
| LexerFacts.LexThrows | src/lib/compiler/lexer.ts:187-195 | `tokenize` throws exactly when the input ends with a newline and no token was scanned |
| LexerFacts.LexEndsWithEof | src/lib/compiler/lexer.ts:196 | the token list ends with exactly one EOF token, whose value is empty |
| LexerFacts.StepWordLines | src/lib/compiler/lexer.ts:135-184 | a name, number or error turn consumes no newline and keeps the line |
| LexerFacts.ReservedText | src/lib/compiler/lexer.ts:219-246 | the text a reserved entry matches holds no newline |
| LexerFacts.StepTokenLines | src/lib/compiler/lexer.ts:119-184 | a token or error turn consumes no newline and keeps the line |
| LexerFacts.StepLines | src/lib/compiler/lexer.ts:95-185 | one turn adds to the line counter the number of newlines it consumed |
| LexerFacts.NumberNoNewline | src/lib/compiler/lexer.ts:154-176 | a number's text holds no newline |
| LexerFacts.ScanStep | src/lib/compiler/lexer.ts:95-185 | the loop from a state inside the input is one turn followed by the loop from the state that turn leaves |
| LexerFacts.SoundMarkIsNoLetter | src/lib/compiler/lexer.ts:211-212 | U+309B, in the Hiragana block but of the Common script, is not a `VARIABLE_NAME` letter |
| LexerFacts.GreekQuestionMarkIsNoLetter | src/lib/compiler/lexer.ts:211-212 | U+037E, in the Greek block but Common, is not a `VARIABLE_NAME` letter |
| LexerFacts.CopticIsNoLetter | src/lib/compiler/lexer.ts:211-212 | U+03E2, in the Greek block but Coptic, is not a `VARIABLE_NAME` letter |
| LexerFacts.HanOutsideMainBlocks | src/lib/compiler/lexer.ts:211-212 | U+3038 and U+30000, outside the main ideograph blocks, are Han and so `VARIABLE_NAME` letters |
| LexerFacts.ScanLines | src/lib/compiler/lexer.ts:95-185 | the loop's line counter ends at its start plus the number of newlines in the rest of the input |
| LexerFacts.ReservedPrefixOfAtom | src/lib/compiler/lexer.ts:120-125 | `format` starts with the keyword `for`, so its first token is the RESERVED `for`, not an atom |
| Utils.ReplaceCrlf | src/lib/compiler/utils.ts:45 | replacing CRLF pairs never lengthens the text |
| Utils.TabsToSpaces | src/lib/compiler/utils.ts:45 | replacing tabs keeps the length |
| Utils.TabsToSpacesSpec | src/lib/compiler/utils.ts:45 | each tab becomes a space and every other character stays in place |
| Utils.ReplaceCrlfIdentity | src/lib/compiler/utils.ts:45 | text with no CRLF pair is left unchanged |
| Utils.ReplaceCrlfNewlines | src/lib/compiler/utils.ts:45 | the CRLF replacement keeps the number of line feeds, so line numbers do not move |
| Utils.NormaliseSpec | src/lib/compiler/utils.ts:43-46 | the stored input holds no tab and as many line feeds as the original |
| Utils.ReplaceCrlfSinglePass | src/lib/compiler/utils.ts:45 | the replacement is one left-to-right pass: `\r\r\n` becomes `\r\n`, which keeps a CRLF pair |
| Utils.Joined | src/lib/compiler/utils.ts:56-85 | the text the numbered lines stand for holds at least one newline per line |
| Utils.SetLineNumber | src/lib/compiler/utils.ts:56-85 | the loop's result numbers the lines 1, 2, ... and each entry holds the text before its newline, with no newline in it |
| Utils.NewlinesBound | src/lib/compiler/utils.ts:56-85 | lines with no newline inside join to text with exactly one newline per line |
| Utils.NumberedCount | src/lib/compiler/utils.ts:56-85 | there is one entry per newline, so text after the last newline gets no entry |
| Utils.FindLine | src/lib/compiler/utils.ts:100-102 | the lookup finds a line exactly when some entry has that number |
| Utils.FindNumbered | src/lib/compiler/utils.ts:100-102 | on numbered lines, line n is entry n - 1, and a number outside the entries prints as `undefined` |
| Utils.Spaces | src/lib/compiler/utils.ts:107-108 | `repeat` of a space gives exactly n spaces |
| Utils.ErrorBlocks | src/lib/compiler/utils.ts:98-112 | one array of pieces is pushed per error, in order |
| Utils.FlattenText | src/lib/compiler/utils.ts:97-115 | pushing a newline and five-piece blocks ending in a newline, then popping the last piece, joins to a newline and the entries separated by newlines |
| Utils.PiecesText | src/lib/compiler/utils.ts:95-115 | the pieces `reportError` pushes, joined after the pop, are the report text |
| Utils.CaretUnderCharacter | src/lib/compiler/utils.ts:104-110 | the caret line puts `^` directly under the character the error points at in the printed source line |
| Utils.Report.constructor | src/lib/compiler/utils.ts:8-20 | the file name, the input and the numbered lines start out unset |
| Utils.Report.SetFilename | src/lib/compiler/utils.ts:27-29 | sets the file name and nothing else |
| Utils.Report.SetUserInput | src/lib/compiler/utils.ts:43-49 | stores the normalised input and its numbered lines, keeping the file name |
| Utils.Report.ReportError | src/lib/compiler/utils.ts:95-116 | the text printed is the specification's report: nothing for no errors, otherwise a newline and each error's header, source line and caret, separated by blank lines |
| Utils.BlocksStep | src/lib/compiler/utils.ts:98-112 | each turn of the loop appends exactly that error's five pieces |
| SortStmt.Categories.Add | src/lib/compiler/sortStmt.ts:39-86 | a block goes to the list of its own phase and the other two lists are unchanged |
| SortStmt.CollectVariables | src/lib/compiler/sortStmt.ts:5-18 | with the `!isInput` filter, no input variable is collected |
| SortStmt.NonInputs | src/lib/compiler/sortStmt.ts:49 | filtering out inputs never lengthens the list |
| SortStmt.CollectVariablesFilter | src/lib/compiler/sortStmt.ts:5-18 | filtering during the walk equals walking and filtering afterwards, so the filter picks exactly the non-input occurrences in walk order |
| SortStmt.RepeatedVariableKept | src/lib/compiler/sortStmt.ts:16-17 | the dedupe `filter` result is discarded, so `X + X` collects the variable twice |
| SortStmt.NoDescentBelowSqrt | src/lib/compiler/sortStmt.ts:10-14 | the walk only descends through `lhs` and `rhs`, so variables below a `sqrt` are not collected |
| SortStmt.TargetIndex | src/lib/compiler/sortStmt.ts:64 | the target is the first non-input variable, or the first variable when all are inputs |
| SortStmt.TestBlock | src/lib/compiler/sortStmt.ts:63-86 | a constraint block holds the statement; it has a variable target exactly when it has variables, and target plus operands are exactly the collected variables (as a multiset) |
| SortStmt.CalcOperands | src/lib/compiler/sortStmt.ts:47-53 | the operands of a computation are never inputs |
| SortStmt.BlockOf | src/lib/compiler/sortStmt.ts:34-87 | exactly assignments and `test` statements make a block, which holds the statement and its token; generators and computations have a target |
| SortStmt.ClassifyStatements | src/lib/compiler/sortStmt.ts:21-93 | the loop computes `Classify`: null on a dummy statement or when every list is empty, otherwise the three lists |
| SortStmt.CategorisedSound | src/lib/compiler/sortStmt.ts:29-88 | every listed block was made from one of the statements, carries its list's phase, and each list keeps statement order |
| SortStmt.CategorisedComplete | src/lib/compiler/sortStmt.ts:29-88 | every assignment and `test` statement is in the list of its block's phase |
| SortStmt.ClassifyNull | src/lib/compiler/sortStmt.ts:29-92 | classification is null exactly when some statement is a dummy or no statement is an assignment or a `test` |
| SortStmt.GeneratorIsAssume | src/lib/compiler/sortStmt.ts:35-45 | `for` and `select` assignments are generators whose target is the left-hand side and which have no operands |
| SortStmt.CalcClassified | src/lib/compiler/sortStmt.ts:46-61 | another assignment whose left side does not mention "constraint" is a computation of its left side, with the non-input variables of an operator or `sqrt` right side as operands |
| SortStmt.TestClassified | src/lib/compiler/sortStmt.ts:75-86 | a `test` is a constraint on its first non-input variable (first variable when all are inputs), and the other occurrences are its operands |
| SortStmt.FindByName | src/lib/compiler/sortStmt.ts:110 | `find` returns a block of the list with that target name, and none exactly when no block has it |
| SortStmt.Unresolved | src/lib/compiler/sortStmt.ts:103-105 | every unresolved operand is an operand whose name no block in the set defines |
| SortStmt.Resolve | src/lib/compiler/sortStmt.ts:96-131 | resolving only appends to the set, never twice the same block, and only the block itself, generators and other computations; the block ends up in the set |
| SortStmt.ResolveFound | src/lib/compiler/sortStmt.ts:110-117 | a found block not yet in the set is resolved and ends up in it; a missing one changes nothing |
| SortStmt.DepStep | src/lib/compiler/sortStmt.ts:108-118 | after one operand's turn, its first generator and first other computation are in the set |
| SortStmt.ResolveDeps | src/lib/compiler/sortStmt.ts:107-119 | the loop over operands only appends generators and other computations, without duplicates |
| SortStmt.ResolveDepsCovers | src/lib/compiler/sortStmt.ts:107-119 | after the loop every unresolved operand's first generator and first other computation are in the set |
| SortStmt.ResolveCovers | src/lib/compiler/sortStmt.ts:96-131 | resolving a block puts in the set the defining generator and computation of each operand unresolved on entry |
| SortStmt.Scheduler.constructor | src/lib/compiler/sortStmt.ts:140 | the set starts empty |
| SortStmt.Scheduler.ResolveDependencies | src/lib/compiler/sortStmt.ts:96-131 | the imperative recursion computes `Resolve` on the set, or reports the stack overflow past the depth bound |
| SortStmt.Scheduler.ResolveOperands | src/lib/compiler/sortStmt.ts:107-119 | the loop computes `ResolveDeps` |
| SortStmt.Scheduler.ResolveOperand | src/lib/compiler/sortStmt.ts:108-118 | the loop body computes `DepStep` |
| SortStmt.Scheduler.ResolveIfAbsent | src/lib/compiler/sortStmt.ts:110-117 | the guarded call computes `ResolveFound` |
| SortStmt.MergeTestCalc | src/lib/compiler/sortStmt.ts:143-147 | the first loop of `mergeBlocks` only appends, without duplicates, and only paired computations, the first constraint on a target, generators and other computations |
| SortStmt.MergeTestCalcComplete | src/lib/compiler/sortStmt.ts:143-147 | every computation a constraint needs, and the first constraint on its target, is in the set after the first loop |
| SortStmt.PairRound | src/lib/compiler/sortStmt.ts:144-146 | one round puts the computation and the first constraint on its target in the set, and appends nothing but those, generators and other computations |
| SortStmt.ResolveEach | src/lib/compiler/sortStmt.ts:150-158 | the second and third loops put every block of their list in the set, without duplicates, and append only blocks of their list, generators and other computations |
| SortStmt.MergeBlocks | src/lib/compiler/sortStmt.ts:134-161 | the imperative `mergeBlocks` computes `Merge` |
| SortStmt.MergeFacts | src/lib/compiler/sortStmt.ts:134-161 | `mergeBlocks` returns no block twice; every generator, every paired computation, the first constraint on the target of each, and every other computation is in it; and it holds nothing else |
| SortStmt.LaterConstraintDropped | src/lib/compiler/sortStmt.ts:145 | a constraint that is not the first on its target is not in the result of `mergeBlocks` |
| SortStmt.ResolveMoreFuel | src/lib/compiler/sortStmt.ts:96-131 | a resolution that completes within a depth bound gives the same set under any larger bound |
| SortStmt.ResolveStepMoreFuel | src/lib/compiler/sortStmt.ts:103-130 | two resolutions whose operand loops one frame down agree give the same set |
| SortStmt.ResolveFoundMoreFuel | src/lib/compiler/sortStmt.ts:110-117 | the guarded call gives the same set under any larger bound |
| SortStmt.DepStepMoreFuel | src/lib/compiler/sortStmt.ts:108-118 | one operand's turn gives the same set under any larger bound |
| SortStmt.ResolveDepsMoreFuel | src/lib/compiler/sortStmt.ts:107-119 | the loop over operands gives the same set under any larger bound |
| SortStmt.PairRoundMoreFuel | src/lib/compiler/sortStmt.ts:144-146 | one round of the first loop gives the same set under any larger bound |
| SortStmt.MergeTestCalcMoreFuel | src/lib/compiler/sortStmt.ts:143-147 | the first loop gives the same set under any larger bound |
| SortStmt.ResolveEachMoreFuel | src/lib/compiler/sortStmt.ts:150-158 | the second and third loops give the same set under any larger bound |
| SortStmt.ResolveEachSkipMoreFuel | src/lib/compiler/sortStmt.ts:155-157 | passing over a block already in the set is the same under any larger bound |
| SortStmt.ResolveEachStepMoreFuel | src/lib/compiler/sortStmt.ts:150-157 | resolving a block in its turn is the same under any larger bound |
| SortStmt.MergeMoreFuel | src/lib/compiler/sortStmt.ts:134-161 | `mergeBlocks` returns the same list under every depth bound at which it does not overflow |
| SortStmt.Bodies | src/lib/compiler/sortStmt.ts:178 | the statements of a list start with those of its first block |
| SortStmt.Generators | src/lib/compiler/sortStmt.ts:122 | a list has no more generators than blocks |
| SortStmt.RunStart | src/lib/compiler/sortStmt.ts:173-188 | the backward walk stops at the first block of the run of computations just before the index |
| SortStmt.Turn | src/lib/compiler/sortStmt.ts:173-192 | a turn replaces the run and the block by one block, shortening the list by the run's length |
| SortStmt.MergePassBodies | src/lib/compiler/sortStmt.ts:166-223 | every pass keeps every statement, in order |
| SortStmt.MergePassGenerators | src/lib/compiler/sortStmt.ts:166-223 | a pass leaves the generators as they are, in order |
| SortStmt.TurnSeparates | src/lib/compiler/sortStmt.ts:189-190 | the merged block of a turn follows no computation |
| SortStmt.MergePassSeparates | src/lib/compiler/sortStmt.ts:166-223 | after a pass over a phase no block of that phase follows a computation |
| SortStmt.CalcPassKeepsTestsSeparated | src/lib/compiler/sortStmt.ts:196-223 | the pass over computations keeps constraints apart from computations |
| SortStmt.MergePassHead | src/lib/compiler/sortStmt.ts:166-223 | a pass leaves a leading generator in place |
| SortStmt.CalcTestMergedBodies | src/lib/compiler/sortStmt.ts:163-225 | `margeCalcTest` keeps every statement, in order |
| SortStmt.CalcTestMergedGenerators | src/lib/compiler/sortStmt.ts:163-225 | `margeCalcTest` leaves the generators as they are, in order |
| SortStmt.CalcTestMergedSeparated | src/lib/compiler/sortStmt.ts:163-225 | afterwards every computation is followed by a generator or ends the list |
| SortStmt.CalcTestMergedHead | src/lib/compiler/sortStmt.ts:163-225 | a leading generator stays first |
| SortStmt.MergePassLoop | src/lib/compiler/sortStmt.ts:166-223 | one imperative pass computes `MergePass` and keeps a leading generator |
| SortStmt.MergeAt | src/lib/compiler/sortStmt.ts:173-192 | the backward walk with `splice` and overwrite computes `Turn`, and the loop resumes just after the merged block |
| SortStmt.MergeCalcTest | src/lib/compiler/sortStmt.ts:163-225 | on a list headed by a generator, `margeCalcTest` computes `CalcTestMerged` |
| SortStmt.StallAtHead | src/lib/compiler/sortStmt.ts:173-192 | a pass that meets its own phase at index 0 gets back the same list and index 0, so it never ends |
| SortStmt.ComputationFirstStalls | src/lib/compiler/sortStmt.ts:163-225 | a computation followed by its constraint, with no generator before them, merges into one block and then stalls |
| SortStmt.HeadComputationKept | src/lib/compiler/sortStmt.ts:166-193 | a leading computation survives every round of the first pass |
| SortStmt.RoundAsWrittenAgrees | src/lib/compiler/sortStmt.ts:173-192 | behind a leading generator the rounds as written are the corrected turns |
| SortStmt.PairedCalcs | src/lib/compiler/sortStmt.ts:234-236 | `testCalc` pairs each constraint with the first computation of its target, and fails exactly when some constraint has none |
| SortStmt.Excluding | src/lib/compiler/sortStmt.ts:237 | `otherCalc` holds exactly the computations not paired with a constraint |
| SortStmt.SortStatements | src/lib/compiler/sortStmt.ts:228-241 | the imperative `sortStmt` computes `Schedule` (throwing, overflowing or not returning where the code does) |
| SortStmt.ScheduleFacts | src/lib/compiler/sortStmt.ts:228-241 | a returned schedule keeps every generator, the statements of every computation and of the first constraint on each target, has no computation right before a constraint or another computation, and starts with a generator |
| SortStmt.PairedConstraintsMerged | src/lib/compiler/sortStmt.ts:234-239 | once every constraint is paired with a computation, the first constraint on each target is in the result of `mergeBlocks` |
| SortStmt.ScheduleMoreFuel | src/lib/compiler/sortStmt.ts:228-241 | any outcome of `sortStmt` other than the stack overflow is the same under every larger depth bound |
| Converter.NewKind | src/lib/compiler/converter.ts:11-43 | integer and real become number, bool boolean, atom string, list array, vector object, anything else dummy, and no two kinds are confused |
| Converter.ConvertType | src/lib/compiler/converter.ts:11-43 | the converted type keeps the token; list and vector types keep their members converted one by one, every other type loses them |
| Converter.ConvertTypes | src/lib/compiler/converter.ts:22-24 | `member.map(convertType)` converts each member in place |
| Converter.ConvertTypeSize | src/lib/compiler/converter.ts:11-43 | conversion never grows a type and drops only member lists of non-structured types |
| Converter.ConvertTypesSize | src/lib/compiler/converter.ts:22-24 | the same, for a member list |
| Converter.ConvertVar | src/lib/compiler/converter.ts:71-81 | a variable is marked as a parameter exactly when the list holds a variable of its name, and keeps its name, input flag, token and type kind |
| Converter.ConvertExpr | src/lib/compiler/converter.ts:46-182 | an expression converts exactly when every node has a visitor case, keeping the tree's shape and marking every variable; strings, atoms and dummies throw "Unknown node type" |
| Converter.ConvertExprs | src/lib/compiler/converter.ts:116-121 | a list's elements convert in order and the first throw ends the map |
| Converter.ConvertMember | src/lib/compiler/converter.ts:83-96 | a member becomes a variable node with the member's token copying its value's fields, all undefined when the value is not a variable |
| Converter.ConvertMembers | src/lib/compiler/converter.ts:98-114 | the members convert in order, keeping their names |
| Converter.ConvertAssign | src/lib/compiler/converter.ts:172-228 | an assignment from `for` or `select` becomes a `return` of the rebuilt generator aimed at the converted left side; other assignments stay assignments |
| Converter.ConvertStmt | src/lib/compiler/converter.ts:184-270 | `test` becomes an `if` holding only the converted condition; `when` and `call` keep their kind |
| Converter.ConvertBody | src/lib/compiler/converter.ts:273-275 | a scheduled block's statements convert in order |
| Converter.ConvertScheduled | src/lib/compiler/converter.ts:272-289 | a scheduled block becomes an unnamed class with one method holding its statements |
| Converter.ConvertSchedule | src/lib/compiler/converter.ts:295-300 | the scheduled blocks become classes in schedule order, the one at index k named `k + 1` |
| Converter.ConvertBlock | src/lib/compiler/converter.ts:291-315 | a dummy block throws "Unknown node type: dummy" |
| Converter.BlockConverted | src/lib/compiler/converter.ts:291-315 | a block converts exactly when its guard does, the scheduler returns and every scheduled statement converts; it diverges exactly when the scheduler does; its classes follow the schedule |
| Converter.ConvertParam | src/lib/compiler/converter.ts:317-324 | a vector parameter's members convert; an atom parameter throws (its value is not an array) and a dummy throws "Unknown node type" |
| Converter.ConvertParams | src/lib/compiler/converter.ts:327-329 | the parameters convert exactly when each is a vector parameter whose members convert |
| Converter.ParamsStep | src/lib/compiler/converter.ts:317-329 | each converted parameter pushes its members onto the list before the next is visited |
| Converter.ParamsThrowKept | src/lib/compiler/converter.ts:327-329 | a throw ends the map: later parameters are not visited |
| Converter.ParamsMarkedEarlier | src/lib/compiler/converter.ts:317-329 | a parameter member is marked as a parameter exactly when a variable of its name was pushed before it |
| Converter.ConvertBlocks | src/lib/compiler/converter.ts:330-332 | a module's blocks convert in order, one class each |
| Converter.BlocksConverted | src/lib/compiler/converter.ts:330-332 | each block is converted against the same list |
| Converter.Numbered | src/lib/compiler/converter.ts:333-335 | the block classes are renamed "1".."n" by position |
| Converter.ConvertModule | src/lib/compiler/converter.ts:326-344 | a module keeps its token and name, has one field per parameter and one class per block, the classes named by position; a dummy module throws |
| Converter.ModuleBlocksMarked | src/lib/compiler/converter.ts:326-344 | a module's blocks mark exactly the variables declared by its own parameters and those pushed before the module |
| Converter.ConvertModules | src/lib/compiler/converter.ts:346-351 | the modules convert in order, one class each |
| Converter.ModulesConverted | src/lib/compiler/converter.ts:346-351 | each module is converted against the parameters of all modules before it |
| Converter.ModulesStep | src/lib/compiler/converter.ts:346-351 | each converted module pushes its parameters' members before the next |
| Converter.ModulesStopKept | src/lib/compiler/converter.ts:346-351 | a module that throws or diverges ends the map |
| Converter.ProgramMarked | src/lib/compiler/converter.ts:9 | the list is never reset between modules, so a block of module i marks the parameters of module i and of every module before it |
| Converter.ASTConverter.constructor | src/lib/compiler/converter.ts:9 | a new converter's parameter list is empty |
| Converter.ASTConverter.VisitParam | src/lib/compiler/converter.ts:317-324 | converts the members and pushes them onto the list when they convert |
| Converter.ASTConverter.VisitParams | src/lib/compiler/converter.ts:327-329 | the imperative map computes `ConvertParams` and leaves every converted member on the list |
| Converter.ASTConverter.VisitModule | src/lib/compiler/converter.ts:326-344 | the imperative MODULE case computes `ConvertModule` and grows the list by the module's fields |
| Converter.ASTConverter.Convert | src/lib/compiler/converter.ts:346-351 | the PROGRAM case computes the modules in order with the list growing across them |
| Converter.Lower | src/lib/compiler/converter.ts:358-359 | `converter` uses a fresh converter and computes `ConvertProgram` |
| CodeGen.UpperChar | src/lib/compiler/codeGen.ts:123-125 | `toUpperCase` on one character: lower-case ASCII letters become upper-case letters, every other character is kept |
| CodeGen.LowerChar | src/lib/compiler/codeGen.ts:201-203 | `toLowerCase` on one character: upper-case ASCII letters become lower-case letters, every other character is kept |
| CodeGen.Lower | src/lib/compiler/codeGen.ts:201-203 | the lowered name has the same length and is lowered character by character |
| CodeGen.Capitalise | src/lib/compiler/codeGen.ts:123-125 | only the first character of a class name is upper-cased; the rest and the length are kept |
| CodeGen.OpText | src/lib/compiler/codeGen.ts:341-401 | every binary operator prints as a symbol surrounded by one space on each side |
| CodeGen.PrimaryGen | src/lib/compiler/codeGen.ts:414-438 | a variable printed as a reference is its holder (`outerThis` for a module parameter, else `methodThis`), a dot and its name |
| CodeGen.ExprGenNoGrouping | src/lib/compiler/codeGen.ts:340-412 | the printed expression never contains grouping parentheses: the tree's nesting is lost |
| CodeGen.ExprGenAmbiguous | src/lib/compiler/codeGen.ts:340-412 | `(a + b) * c` and `a + b * c` print to the same text |
| CodeGen.VarHolder | src/lib/compiler/codeGen.ts:422-434 | a variable's text starts with `outerThis.` exactly when it is a module parameter |
| CodeGen.GeneratorGen | src/lib/compiler/codeGen.ts:302-329 | a `for` generator prints as a `new For(` goal and a `select` as a `new Member(` goal |
| CodeGen.Cont | src/lib/compiler/codeGen.ts:238-240 | a statement's continuation is the next statement class of its block when there is one, else `outerThis.cont` |
| CodeGen.ExecBody | src/lib/compiler/codeGen.ts:253-264 | one text per statement of the method body |
| CodeGen.ExecBodyReturn | src/lib/compiler/codeGen.ts:253-264 | a `return` of the continuation follows a statement exactly when it is the last one and an assignment |
| CodeGen.FieldLines | src/lib/compiler/codeGen.ts:127-133 | one declaration line per field, each built from that field's name |
| CodeGen.InstanceLines | src/lib/compiler/codeGen.ts:215-220 | one instance line per statement class of the block |
| CodeGen.CodeBlock | src/lib/compiler/codeGen.ts:176-231 | the loop over the statement classes writes exactly the block's text, and throws where the block has no statement |
| CodeGen.AssignLines | src/lib/compiler/codeGen.ts:142-144 | the constructor assigns each field from the argument of the same name, in field order |
| CodeGen.ExecLines | src/lib/compiler/codeGen.ts:152-159 | one `return new this.Method_…().exec(vm)` line per block, in block order |
| CodeGen.Prepend | src/lib/compiler/codeGen.ts:161-164 | lines already written stay in front of the rest; a throw discards them |
| CodeGen.BlocksAdvance | src/lib/compiler/codeGen.ts:161-164 | one turn of the block loop keeps the text written so far in front of the remaining blocks' text |
| CodeGen.CodeClass | src/lib/compiler/codeGen.ts:121-174 | the loop over the blocks writes exactly the class text: declaration, fields, constructor, `exec`, then each block followed by a blank line |
| CodeGen.InputFields | src/lib/compiler/codeGen.ts:38 | the input fields are among the module's fields |
| CodeGen.OutputFields | src/lib/compiler/codeGen.ts:84-86 | the result fields are among the module's fields |
| CodeGen.InputFieldsSpec | src/lib/compiler/codeGen.ts:34-38 | a variable is an input field exactly when it is a field's variable marked input |
| CodeGen.OutputFieldsSpec | src/lib/compiler/codeGen.ts:84-86 | a variable is a result field exactly when it is a field not marked input |
| CodeGen.FieldVars | src/lib/compiler/codeGen.ts:34-37 | the variables of the fields, one per field, in order |
| CodeGen.MainDecl | src/lib/compiler/codeGen.ts:42-63 | with no input field `main` takes no argument; otherwise its declaration holds an `input: {` record with one line per input field |
| CodeGen.ResultLines | src/lib/compiler/codeGen.ts:82-88 | the result record has one line per non-input field between its opening and closing lines |
| CodeGen.ClassesStep | src/lib/compiler/codeGen.ts:39-44 | the classes' text is each class followed by a blank line, and a throwing class throws for the whole |
| CodeGen.ClassesAdvance | src/lib/compiler/codeGen.ts:39-44 | one turn of the class loop keeps the text written so far in front of the remaining classes' text |
| CodeGen.PrependJoin | src/lib/compiler/codeGen.ts:39-44 | writing two groups of lines in turn is writing them together |
| CodeGen.ProgramLines | src/lib/compiler/codeGen.ts:18-23 | a generated module begins with the import lines and a blank line |
| CodeGen.CodeGenerator.constructor | src/lib/compiler/codeGen.ts:14-16 | a new generator holds the program and has written nothing |
| CodeGen.CodeGenerator.AddImports | src/lib/compiler/codeGen.ts:25-37 | the eight import lines and a blank line are appended to the output |
| CodeGen.CodeGenerator.AddClasses | src/lib/compiler/codeGen.ts:39-44 | the output grows by exactly the classes' text, or the generator throws what the first failing class throws |
| CodeGen.CodeGenerator.AddClass | src/lib/compiler/codeGen.ts:41-43 | one class and a blank line are appended, and the loop's invariant on the text written so far is kept |
| CodeGen.CodeGenerator.GenMain | src/lib/compiler/codeGen.ts:46-119 | the output grows by exactly the text of `main`, or the generator throws when the program has no module or a field has undefined contents |
| CodeGen.CodeGenerator.Generate | src/lib/compiler/codeGen.ts:18-23 | the program is kept and the result is the module text joined with newlines, or the first throw |
| Grammar.TextMatches | src/lib/compiler/parser.ts:96-102 | `isCurrent` of a text that names no token type compares the token's text, in both directions |
| Grammar.KindNamesAreTokenTypes | src/lib/compiler/parser.ts:96-102 | `isCurrent` of a token-type name holds exactly for tokens of that kind |
| Grammar.Next | src/lib/compiler/parser.ts:87-89 | `next` moves the cursor by one and changes nothing else the later parse depends on |
| Grammar.Report | src/lib/compiler/parser.ts:112-117 | reporting appends exactly one error and leaves the cursor where it was |
| Grammar.Expect | src/lib/compiler/parser.ts:109-119 | `expect` leaves the state alone on a match and otherwise appends `Expected c, but got "text"` at the token's position |
| Grammar.Take | src/lib/compiler/parser.ts:126-131 | `consume` returns the current token and moves past it after its `expect` |
| Grammar.Consume | src/lib/compiler/parser.ts:126-131 | `consume` crashes exactly when the cursor is past the last token, and otherwise is Take |
| Grammar.FirstNamedSpec | src/lib/compiler/parser.ts:138-147 | the variable found is the first of that name, and none is found exactly when no variable has the name |
| Grammar.FirstNamedConcat | src/lib/compiler/parser.ts:139-146 | searching two scopes in a row finds the first scope's variable whenever it has one |
| Grammar.FindVarModuleFirst | src/lib/compiler/parser.ts:138-147 | `findVar` looks in the module scope first and in the block scope only when the module scope has no such name |
| Grammar.PushVar | src/lib/compiler/parser.ts:156-195 | a name in scope with another type kind gives one error and a dummy variable; with the same kind the existing variable is returned unchanged; a new name is appended to the local list and to the block or module scope |
| Grammar.FirstNamedAppend | src/lib/compiler/parser.ts:188-193 | a new name appended to a scope is then found there |
| Grammar.PushVarDeclares | src/lib/compiler/parser.ts:156-195 | after `pushVar` the name is in scope, bound to the variable found before or else to the new one |
| Grammar.FirstTypeNameSpec | src/lib/compiler/parser.ts:220-234 | the type name found is one the token spells, and none is found exactly when the token spells none |
| Grammar.SimpleTypeNameKinds | src/lib/compiler/parser.ts:220-234 | `integer`/`i`, `real`/`r`, `bool`/`b` and `atom`/`a` each name their own simple kind, and nothing else is named |
| Grammar.ParseType | src/lib/compiler/parser.ts:240-305 | a type that is parsed consumes at least one token and carries the token it started at |
| Grammar.ParseStructType | src/lib/compiler/parser.ts:252-294 | a list or vector type keeps its kind and opening token and consumes its closing bracket |
| Grammar.TypeList | src/lib/compiler/parser.ts:261-264 | the member loop stops only at a token that is not a comma, and keeps the members parsed before it |
| Grammar.FirstRuleSpec | src/lib/compiler/parser.ts:741-969 | the operator rule found has the token's text as its symbol, and none is found exactly when no rule of the level has it |
| Grammar.Combine | src/lib/compiler/parser.ts:741-969 | one loop turn builds a binary node on the operator's token, with the node so far on the left and the new operand on the right, the two swapped for `>` and `>=` |
| Grammar.ParseExpr | src/lib/compiler/parser.ts:733-735 | an expression that is parsed consumes at least one token and never shortens the error list |
| Grammar.ParseChain | src/lib/compiler/parser.ts:741-969 | every binary level that returns has consumed at least one token |
| Grammar.ChainLoop | src/lib/compiler/parser.ts:744-758 | a level's loop ends only at a token that is not one of its operators |
| Grammar.ParseOperand | src/lib/compiler/parser.ts:741-969 | each level parses its operands with the next tighter level, and consumes at least one token |
| Grammar.ParseNotTerm | src/lib/compiler/parser.ts:789-805 | `not ( equality )` or an equality, consuming at least one token |
| Grammar.ParsePow | src/lib/compiler/parser.ts:976-990 | a power consumes at least one token |
| Grammar.ParseUnary | src/lib/compiler/parser.ts:996-1012 | a unary consumes at least one token |
| Grammar.ParsePrimary | src/lib/compiler/parser.ts:1025-1189 | a primary consumes at least one token, including the error case, which skips the unexpected token |
| Grammar.ParseCallArg | src/lib/compiler/parser.ts:1028-1050 | the parenthesised argument of `sqrt` and `exp` consumes at least one token |
| Grammar.ParseList | src/lib/compiler/parser.ts:1059-1083 | a `[` primary always gives a list node |
| Grammar.TailTurn | src/lib/compiler/parser.ts:1064-1075 | the item loop goes on at a comma not followed by the closing bracket and then passes that comma |
| Grammar.ListTail | src/lib/compiler/parser.ts:1064-1075 | the list-item loop keeps the items parsed before it |
| Grammar.ParseVector | src/lib/compiler/parser.ts:1085-1109 | a `{` primary always gives a vector node |
| Grammar.MemberTail | src/lib/compiler/parser.ts:1090-1101 | the vector-member loop keeps the members parsed before it |
| Grammar.ParseMember | src/lib/compiler/parser.ts:1195-1225 | a member carries the token it started at and consumes at least one token |
| Grammar.ParseAnnotation | src/lib/compiler/parser.ts:1140-1153 | after an annotation the name is in scope; without one the state is unchanged and the type is the dummy one placed just after the name, its column advanced by the name's `length` in UTF-16 code units |
| Grammar.ParseVarRef | src/lib/compiler/parser.ts:1131-1174 | a variable reference is either a dummy on its token or a variable with that token's name and token; an unannotated name's placeholder type sits after the name in UTF-16 columns |
| Grammar.CheckNumeric | src/lib/compiler/parser.ts:661-669 | a type check of a `for` bound adds errors only and leaves the cursor where it was |
| Grammar.ParseForRange | src/lib/compiler/parser.ts:656-702 | `for ( e , e , e )` consumes at least one token |
| Grammar.ParseSelect | src/lib/compiler/parser.ts:704-724 | `select ( primary )` consumes at least one token |
| Grammar.ParseBuildIn | src/lib/compiler/parser.ts:653-727 | a build-in consumes at least one token |
| Grammar.ParseAssign | src/lib/compiler/parser.ts:634-645 | an assignment consumes at least one token |
| Grammar.MatchNameSpec | src/lib/compiler/parser.ts:588-593 | the module name found is one of the local module names that the token matches, and "" when it matches none |
| Grammar.CallTarget | src/lib/compiler/parser.ts:583-611 | the target of `call` is one of the local module names, in which case nothing is reported, or `dummy` |
| Grammar.ParseCall | src/lib/compiler/parser.ts:579-625 | a `call` statement consumes at least one token |
| Grammar.ParseCondition | src/lib/compiler/parser.ts:555-577 | the `( expr )` of `test` and `when` consumes at least one token |
| Grammar.ParseStmtExpr | src/lib/compiler/parser.ts:552-628 | a statement expression consumes at least one token |
| Grammar.MissingSemicolon | src/lib/compiler/parser.ts:512-535 | a missing `;` adds exactly one error and skips the current token unless it is the end of input |
| Grammar.ParseStmt | src/lib/compiler/parser.ts:508-543 | a statement carries the token it started at and consumes at least one token |
| Grammar.Stmts | src/lib/compiler/parser.ts:455-457 | the statement loop ends only at `end` and keeps the statements parsed before it |
| Grammar.FirstStmtSpec | src/lib/compiler/parser.ts:489 | the first non-dummy statement is found exactly when there is one, and it is that of the first non-dummy node |
| Grammar.SplitGuard | src/lib/compiler/parser.ts:489-494 | a block has a guard exactly when its first non-dummy statement is a `when`, whose condition it is; the first node is then dropped, whichever it is; with no statement at all the source crashes |
| Grammar.ParseBlock | src/lib/compiler/parser.ts:449-502 | a parsed block carries its first token and leaves the block scope empty |
| Grammar.MarkInput | src/lib/compiler/parser.ts:420-425 | a member's variable is marked input when asked and is otherwise left alone |
| Grammar.DeclareMembers | src/lib/compiler/parser.ts:411-428 | declaring the members adds errors only and keeps the cursor and the counter |
| Grammar.DeclareMembersMarks | src/lib/compiler/parser.ts:411-428 | the members come back in order, each marked input exactly when the counter is 0 |
| Grammar.DeclareVector | src/lib/compiler/parser.ts:397-433 | the parameter is a vector parameter exactly when the primary parsed is a vector literal |
| Grammar.ParseVectorParam | src/lib/compiler/parser.ts:395-434 | a vector parameter raises the counter by one and consumes at least one token |
| Grammar.ParseParam | src/lib/compiler/parser.ts:380-443 | a parameter other than the error case consumes at least one token, and nothing lowers the counter |
| Grammar.ParamList | src/lib/compiler/parser.ts:367-370 | the parameter loop keeps the parameters parsed before it |
| Grammar.ParseParams | src/lib/compiler/parser.ts:362-374 | the parameter list consumes at least one token |
| Grammar.Blocks | src/lib/compiler/parser.ts:338-340 | the block loop ends only at `end` and keeps the blocks parsed before it |
| Grammar.ModuleStart | src/lib/compiler/parser.ts:312-319 | a module starts with empty local lists and empty scopes, everything else kept |
| Grammar.ModuleName | src/lib/compiler/parser.ts:320-334 | the module name is read without moving the cursor |
| Grammar.ModuleEnd | src/lib/compiler/parser.ts:341-345 | `end`, an optional `module` and `;` consume at least one token |
| Grammar.ParseModule | src/lib/compiler/parser.ts:311-354 | a module carries its first token and the local variables declared while parsing it |
| Grammar.Modules | src/lib/compiler/parser.ts:204-206 | the module loop stops only at the end-of-input token, and what it returns is the program list |
| Grammar.Exec | src/lib/compiler/parser.ts:202-214 | `exec` returns the errors reported and the program built |
| Parser.Parser.constructor | src/lib/compiler/parser.ts:56-73 | a new parser has no tokens, the cursor at 0, empty lists and scopes and the vector parameter counter at -1 |
| Parser.Parser.Peek | src/lib/compiler/parser.ts:79-81 | `peek` gives the current token, and `undefined` exactly when the cursor is past the last token |
| Parser.Parser.Next | src/lib/compiler/parser.ts:87-89 | `next` is Grammar.Next on the parser's fields |
| Parser.Parser.IsCurrent | src/lib/compiler/parser.ts:96-102 | `isCurrent` of a text holds exactly when the current token has that text, and throws exactly past the last token |
| Parser.Parser.IsCurrentKind | src/lib/compiler/parser.ts:96-102 | `isCurrent` of a token type holds exactly when the current token has that kind, and throws exactly past the last token |
| Parser.Parser.CurrentIs | src/lib/compiler/parser.ts:96-102 | `isCurrent` of a text holds exactly when the current token has that text |
| Parser.Parser.CurrentIsKind | src/lib/compiler/parser.ts:96-102 | `isCurrent` of a token type holds exactly when the current token has that kind |
| Parser.Parser.CurrentMatches | src/lib/compiler/parser.ts:96-102 | `isCurrent` of a text known only at run time compares kinds for token-type names and texts otherwise |
| Parser.Parser.Expect | src/lib/compiler/parser.ts:109-119 | `expect` throws exactly past the last token, changing nothing, and is otherwise Grammar.Expect on the fields |
| Parser.Parser.Consume | src/lib/compiler/parser.ts:126-131 | `consume` returns and leaves what Grammar.Consume describes, the crash included |
| Parser.Parser.Take | src/lib/compiler/parser.ts:126-131 | `consume` of a present token is Grammar.Take on the fields |
| Parser.Parser.FindVar | src/lib/compiler/parser.ts:138-147 | the loop over both scopes finds what Grammar.FindVar finds |
| Parser.Parser.PushVar | src/lib/compiler/parser.ts:156-195 | `pushVar` returns and leaves what Grammar.PushVar describes |
| Parser.Parser.IsSimpleTypeName | src/lib/compiler/parser.ts:220-234 | the two loops over type names and abbreviations find Grammar.SimpleTypeName |
| Parser.Parser.StartsType | src/lib/compiler/parser.ts:255-259 | the test whether a member type follows is Grammar.StartsType |
| Parser.Parser.ParseType | src/lib/compiler/parser.ts:240-305 | `parseType` agrees with Grammar.ParseType: same result, same fields, same crash |
| Parser.Parser.ParseStructType | src/lib/compiler/parser.ts:252-294 | the list and vector branches agree with Grammar.ParseStructType |
| Parser.Parser.TypeList | src/lib/compiler/parser.ts:261-264 | the member-type loop agrees with Grammar.TypeList |
| Parser.Parser.ParseExpr | src/lib/compiler/parser.ts:733-735 | `parseExpr` agrees with Grammar.ParseExpr |
| Parser.Parser.CurrentRule | src/lib/compiler/parser.ts:745-966 | the `isCurrent` tests of a level find the operator rule Grammar.FirstRule finds |
| Parser.Parser.ParseChain | src/lib/compiler/parser.ts:741-969 | each binary level and its `for(;;)` loop agree with Grammar.ParseChain |
| Parser.Parser.ParseOperand | src/lib/compiler/parser.ts:741-969 | the operand of each binary level agrees with Grammar.ParseOperand |
| Parser.Parser.ParseNotTerm | src/lib/compiler/parser.ts:789-805 | `parseNotTerm` agrees with Grammar.ParseNotTerm |
| Parser.Parser.ParsePow | src/lib/compiler/parser.ts:976-990 | `parsePow` agrees with Grammar.ParsePow |
| Parser.Parser.ParseUnary | src/lib/compiler/parser.ts:996-1012 | `parseUnary` agrees with Grammar.ParseUnary |
| Parser.Parser.ParsePrimary | src/lib/compiler/parser.ts:1025-1189 | `parsePrimary` agrees with Grammar.ParsePrimary |
| Parser.Parser.ParseCallArg | src/lib/compiler/parser.ts:1028-1050 | the argument of `sqrt` and `exp` agrees with Grammar.ParseCallArg |
| Parser.Parser.ParseList | src/lib/compiler/parser.ts:1059-1083 | a list literal agrees with Grammar.ParseList |
| Parser.Parser.TailTurn | src/lib/compiler/parser.ts:1064-1075 | the loop test for further items agrees with Grammar.TailTurn, including the read of the token after the comma |
| Parser.Parser.ListTail | src/lib/compiler/parser.ts:1064-1075 | the loop over list items agrees with Grammar.ListTail |
| Parser.Parser.ParseVector | src/lib/compiler/parser.ts:1085-1109 | a vector literal agrees with Grammar.ParseVector |
| Parser.Parser.MemberTail | src/lib/compiler/parser.ts:1090-1101 | the loop over vector members agrees with Grammar.MemberTail |
| Parser.Parser.ParseMember | src/lib/compiler/parser.ts:1195-1225 | `parseMember` agrees with Grammar.ParseMember |
| Parser.Parser.ParseVarRef | src/lib/compiler/parser.ts:1131-1174 | a variable reference agrees with Grammar.ParseVarRef, UTF-16 placeholder column included |
| Parser.Parser.CheckNumeric | src/lib/compiler/parser.ts:661-669 | the type check of a `for` bound is Grammar.CheckNumeric on the fields |
| Parser.Parser.ParseForRange | src/lib/compiler/parser.ts:656-702 | the `for` generator agrees with Grammar.ParseForRange |
| Parser.Parser.ParseSelect | src/lib/compiler/parser.ts:704-724 | the `select` generator agrees with Grammar.ParseSelect |
| Parser.Parser.ParseBuildIn | src/lib/compiler/parser.ts:653-727 | `parseBuildIn` agrees with Grammar.ParseBuildIn |
| Parser.Parser.ParseAssign | src/lib/compiler/parser.ts:634-645 | `parseAssign` agrees with Grammar.ParseAssign |
| Parser.Parser.MatchModuleName | src/lib/compiler/parser.ts:588-593 | the loop over the local module names finds Grammar.MatchName |
| Parser.Parser.CallTarget | src/lib/compiler/parser.ts:583-611 | the module name of a `call` is Grammar.CallTarget on the fields |
| Parser.Parser.ParseCall | src/lib/compiler/parser.ts:579-625 | the `call` statement agrees with Grammar.ParseCall |
| Parser.Parser.ParseCondition | src/lib/compiler/parser.ts:555-577 | the condition of `test` and `when` agrees with Grammar.ParseCondition |
| Parser.Parser.ParseStmtExpr | src/lib/compiler/parser.ts:552-628 | `parseStmtExpr` agrees with Grammar.ParseStmtExpr |
| Parser.Parser.MissingSemicolon | src/lib/compiler/parser.ts:512-535 | the missing-`;` error is Grammar.MissingSemicolon on the fields |
| Parser.Parser.ParseStmt | src/lib/compiler/parser.ts:508-543 | `parseStmt` agrees with Grammar.ParseStmt |
| Parser.Parser.Stmts | src/lib/compiler/parser.ts:455-457 | the statement loop agrees with Grammar.Stmts |
| Parser.Parser.ParseBlock | src/lib/compiler/parser.ts:449-502 | `parseBlock` agrees with Grammar.ParseBlock, the crash on a block with no statement included |
| Parser.Parser.DeclareMembers | src/lib/compiler/parser.ts:411-428 | the member loop of a vector parameter is Grammar.DeclareMembers on the fields |
| Parser.Parser.ParseVectorParam | src/lib/compiler/parser.ts:395-434 | the `{` branch of `parseParam` agrees with Grammar.ParseVectorParam |
| Parser.Parser.DeclareVector | src/lib/compiler/parser.ts:397-433 | declaring a vector parameter is Grammar.DeclareVector on the fields |
| Parser.Parser.ParseParam | src/lib/compiler/parser.ts:380-443 | `parseParam` agrees with Grammar.ParseParam |
| Parser.Parser.ParseParams | src/lib/compiler/parser.ts:362-374 | `parseParams` agrees with Grammar.ParseParams |
| Parser.Parser.ModuleName | src/lib/compiler/parser.ts:320-334 | the module name is Grammar.ModuleName on the fields |
| Parser.Parser.Blocks | src/lib/compiler/parser.ts:338-340 | the block loop agrees with Grammar.Blocks |
| Parser.Parser.ModuleEnd | src/lib/compiler/parser.ts:341-345 | the end of a module agrees with Grammar.ModuleEnd |
| Parser.Parser.ParseModule | src/lib/compiler/parser.ts:311-354 | `parseModule` agrees with Grammar.ParseModule |
| Parser.Parser.Exec | src/lib/compiler/parser.ts:202-214 | `exec` agrees with Grammar.Exec on the given tokens |
| Parser.Parse | src/lib/compiler/parser.ts:1233-1236 | `parser` throws exactly where Grammar.Parse crashes and otherwise returns its result |
| GrammarFacts.NumberIsPower | src/lib/compiler/parser.ts:976-990 | a number followed by anything but `^` parses as a power that is just that number |
| GrammarFacts.NoRule | src/lib/compiler/parser.ts:744-758 | a level's loop returns the node unchanged at a token that is none of its operators |
| GrammarFacts.NoOperator | src/lib/compiler/parser.ts:741-969 | every level's loop returns the node unchanged at a token that is no binary operator |
| GrammarFacts.Lift | src/lib/compiler/parser.ts:741-969 | a lone operand parses to the same node at every level of the ladder, unless it starts with `not` |
| GrammarFacts.PowerIsChain | src/lib/compiler/parser.ts:733-969 | a single power followed by no operator is the whole expression |
| GrammarFacts.MinusStep | src/lib/compiler/parser.ts:911-920 | a `-` in the additive loop makes the node so far the left operand and the next product the right one, then the loop goes on |
| GrammarFacts.GreaterStep | src/lib/compiler/parser.ts:867-886 | a `>` or `>=` in the relational loop becomes a `<` or `=<` whose left operand is the next sum and whose right operand is the node so far |
| GrammarFacts.TimesStep | src/lib/compiler/parser.ts:935-944 | a `*` in the multiplicative loop makes the node so far the left operand and the next power the right one |
| GrammarFacts.SubtractionIsLeftAssociative | src/lib/compiler/parser.ts:900-931 | `1 - 2 - 3` parses as `(1 - 2) - 3` |
| GrammarFacts.GreaterSwapsOperands | src/lib/compiler/parser.ts:867-886 | `1 > 2` parses as `2 < 1`, and `1 >= 2` as `2 =< 1` |
| GrammarFacts.PowStep | src/lib/compiler/parser.ts:976-990 | a unary followed by `^` becomes the left operand of a power whose right operand is the rest read as a power again, ending where that rest ends |
| GrammarFacts.PowEnd | src/lib/compiler/parser.ts:976-990 | a unary followed by anything but `^` is the whole power |
| GrammarFacts.NegStep | src/lib/compiler/parser.ts:996-1005 | a `-` wraps the one primary after it in a negation carrying the `-` token, and fails where that primary fails |
| GrammarFacts.PlusStep | src/lib/compiler/parser.ts:1006-1009 | a `+` is skipped and the unary is the primary after it, with no node of its own |
| GrammarFacts.PowerIsRightAssociative | src/lib/compiler/parser.ts:976-990 | `2 ^ 3 ^ 4` parses as `2 ^ (3 ^ 4)` |
| GrammarFacts.MinusTakesOnePrimary | src/lib/compiler/parser.ts:996-1005 | `- 1 ^ 2` parses as `(- 1) ^ 2`: the minus takes one primary |
| GrammarFacts.PlusIsDropped | src/lib/compiler/parser.ts:1006-1009 | a unary plus leaves no node |
| GrammarFacts.PowerBindsTighterThanProduct | src/lib/compiler/parser.ts:934-969 | `2 * 3 ^ 4` parses as `2 * (3 ^ 4)` |
| GrammarFacts.BareReference | src/lib/compiler/parser.ts:1140-1173 | an unannotated reference is never an input and takes the type of the variable in scope; a name in no scope is reported as not defined, at the name's column plus its `length` in UTF-16 code units, and becomes a dummy |
| GrammarFacts.UndefinedColumnCountsUtf16 | src/lib/compiler/parser.ts:1140 | the placeholder after `X𠀀` at column c is at c+3, after `XY` at c+2: a character beyond U+FFFF counts two columns |
| GrammarFacts.AnnotatedIsDefined | src/lib/compiler/parser.ts:1148-1173 | an annotated reference is a variable with the type of the scope's variable, and the name is in scope afterwards |
| GrammarFacts.VectorParamMarks | src/lib/compiler/parser.ts:395-428 | the members of a vector parameter are marked input exactly when it is the first vector parameter read |
| GrammarFacts.LaterVectorParamsUnmarked | src/lib/compiler/parser.ts:395-428 | later vector parameters leave their members unmarked |
| GrammarFacts.GuardShiftDropsFirstNode | src/lib/compiler/parser.ts:489-494 | when a dummy precedes the `when`, the dummy is dropped and the `when` stays in the body while also becoming the guard |
| GrammarFacts.EmptyBlockThrows | src/lib/compiler/parser.ts:489 | a block with no statement throws |
| Pipeline.Generate | src/lib/compiler/codeGen.ts:441-444 | a generated text begins with the import lines and a newline |
| Pipeline.GeneratedStartsWithImports | src/lib/compiler/codeGen.ts:18-37 | the joined module text begins with the joined import lines and a newline |
| Pipeline.Compilation | src/lib/compiler/main.ts:18-41 | errors are pushed only when `compile` throws for lexical or syntax errors, and a text is returned only when none was pushed; it begins with the import lines |
| Pipeline.Lexing | src/lib/compiler/main.ts:25-29 | the stages from the lexer on keep the same two promises |
| Pipeline.AfterLexing | src/lib/compiler/main.ts:26-29 | lexical errors are pushed and stop the compilation with the lexer's message |
| Pipeline.AfterParsing | src/lib/compiler/main.ts:32-40 | syntax errors are pushed and stop the compilation with the parser's message; otherwise nothing is pushed |
| Pipeline.Lower | src/lib/compiler/main.ts:37-40 | lowering then generating gives the generated text of the converted program |
| Pipeline.CodeGenOf | src/lib/compiler/codeGen.ts:441-444 | a fresh generator's text is the generated text of the program |
| Pipeline.JoinLinesPrefix | src/lib/compiler/codeGen.ts:18-23 | lines that begin a longer list, joined, begin the whole joined text and are followed by a newline |
| Pipeline.SuccessIsClean | src/lib/compiler/main.ts:18-41 | a compilation that returns a text met no lexical and no syntax error and no crash |
| Pipeline.Driver.constructor | src/lib/compiler/main.ts:11 | the error list starts empty |
| Pipeline.Driver.Compile | src/lib/compiler/main.ts:18-41 | `compile` returns what Compilation describes, appends its errors to the list kept from earlier calls, and records the file name and the normalised input for the report |
| Pipeline.Driver.Parse | src/lib/compiler/main.ts:26-40 | the part after `tokenize` returns and pushes what AfterLexing describes |
| Pipeline.Driver.Compiler | src/lib/compiler/main.ts:47-54 | `compiler` returns the text, or after any throw reports the whole error list and returns nothing; reporting throws in turn when a column is too small |
| Base.NatToStringRoundTrip | src/lib/compiler/utils.ts:106-111 | reading back the decimal digits printed for a number gives the number |
| Base.NatToStringCanonical | src/lib/compiler/utils.ts:106-111 | the printed number has no leading zero except for 0 itself |
| Base.IntToString | src/lib/compiler/utils.ts:106-111 | a printed integer starts with a minus sign exactly when it is negative |
| Base.JsonEscapeChar | src/lib/compiler/parser.ts:163-165 | `JSON.stringify` escapes exactly the quote, the backslash and the control characters, and keeps every other character |
| Base.JsonQuote | src/lib/compiler/parser.ts:163-165 | a quoted name is the escaped text between double quotes |
| Base.JsonEscapePlain | src/lib/compiler/parser.ts:163-165 | a text without quotes, backslashes or control characters is quoted verbatim |
| Base.JsonEscapeNoBareQuote | src/lib/compiler/parser.ts:163-165 | every quote inside the escaped text is preceded by a backslash |
| Heaps.Cell | src/module/Variable.ts:6 | a cell's content, unbound outside the allocated cells |
| Heaps.Bind | src/module/Variable.ts:24-26 | `setValue` binds one cell and leaves every other cell and counter alone |
| Heaps.Alloc | src/module/Variable.ts:15-18 | `new Variable(v)` takes the next address, holding v or unbound, and changes nothing else |
| Heaps.Counter | src/module/For.ts:67 | the counter of a method instance |
| Heaps.StoreCounter | src/module/For.ts:96 | assigning a counter changes that counter only |
| Heaps.NewCounter | src/module/For.ts:64-67 | a new method instance gets a fresh counter holding its start value, and nothing else changes |
| Heaps.Settled | src/module/Predicate.ts:48 | an `exec` either returns a goal with the state it leaves or throws |
| Heaps.Heap.constructor | src/module/Variable.ts:6 | no cells and no counters exist before the program runs |
| Heaps.Heap.NewCell | src/module/Variable.ts:15-18 | allocation is Heaps.Alloc on the store |
| Heaps.Heap.GetCell | src/module/Variable.ts:32-35 | the store's content of a cell |
| Heaps.Heap.SetValue | src/module/Variable.ts:24-26 | `setValue` is Heaps.Bind on the store |
| Heaps.Heap.NewFrame | src/module/For.ts:67 | a new method instance is Heaps.NewCounter on the store |
| Heaps.Heap.GetCounter | src/module/For.ts:77 | the store's counter of a method instance |
| Heaps.Heap.SetCounter | src/module/For.ts:96 | assigning a counter is Heaps.StoreCounter on the store |
| VM.Top | src/module/VM.ts:37-39 | `getChoicePoint` reads slot `ccp`, undefined when that slot was never written |
| VM.Pop | src/module/VM.ts:44-46 | `popChoicePoint` only lowers `ccp`; the slot keeps its goal |
| VM.Push | src/module/VM.ts:29-31 | `setChoicePoint` raises `ccp` and stores the goal there; popping it restores the previous top |
| VM.PushKeepsOthers | src/module/VM.ts:29-31 | a push writes only the slot above `ccp` |
| VM.PushPushPop | src/module/VM.ts:29-46 | two pushes come back in reverse order |
| VM.VM.constructor | src/module/VM.ts:11-23 | a new machine has `ccp` at -1 and no slot written |
| VM.VM.SetChoicePoint | src/module/VM.ts:29-31 | the stack becomes VM.Push of the old one |
| VM.VM.GetChoicePoint | src/module/VM.ts:37-39 | the result is VM.Top of the stack |
| VM.VM.PopChoicePoint | src/module/VM.ts:44-46 | the stack becomes VM.Pop of the old one |
| VM.VM.Jtry | src/module/VM.ts:79-83 | `jtry` pushes the second goal and returns the first |
| VM.VM.Trust | src/module/VM.ts:85-88 | `trust` returns its goal and leaves the stack alone |
| Engine.MoreFuel | src/module/VM.ts:53-65 | a `call` that ends within a step budget ends the same way with a larger one |
| Engine.ResumeMoreFuel | src/module/VM.ts:55-63 | the same for the rest of `call`'s loop after a step |
| Engine.CallStep | src/module/VM.ts:55-63 | `call` of a goal is one `exec` and what the loop does with its result |
| Engine.CallAfterStep | src/module/VM.ts:55-63 | a throw ends `call`, the success sentinel makes it true, the failure sentinel resumes at the top choice point without popping it, and any other goal is run next |
| Engine.CallPasses | src/module/VM.ts:55-63 | a step returning an ordinary goal continues `call` with that goal |
| Engine.CallSucceeds | src/module/VM.ts:57-59 | a step returning the success sentinel makes `call` true in the state it left |
| Engine.CallFails | src/module/VM.ts:60-64 | a step returning the failure sentinel with no choice point left makes `call` false |
| Engine.ReadAll | src/module/Variable.ts:32-35 | reading the recorded cells gives one value per cell, or throws `null value` |
| Engine.ReadAllCells | src/module/Variable.ts:32-35 | the reads succeed exactly when every recorded cell is bound, and value i is cell i's content |
| Engine.DriveShape | src/module/sample.ts:136-140 | the `call`/`redo` loop of `main` records at most the budgeted rows, never stops on a true answer, records nothing when the first `call` is not true, and first records the cells as `call` left them |
| Engine.DriveRound | src/module/sample.ts:136-140 | one round records the row and then runs `redo` |
| Engine.DriveAdvance | src/module/sample.ts:136-140 | the loop's invariant carries over one recorded row |
| Engine.Step | src/module/Predicate.ts:48 | one `exec` on the machine is the step function of the goal's class |
| Engine.Pass | src/module/VM.ts:55-63 | one pass of `call`'s loop on the machine relates to the rest of the run as Engine.CallAfterStep says |
| Engine.Call | src/module/VM.ts:53-65 | `call` answers what the run function answers and leaves its stack and store |
| Engine.Redo | src/module/VM.ts:71-76 | `redo` answers false with no choice point, and otherwise pops it and `call`s it |
| Engine.Enumerate | src/module/sample.ts:136-140 | the `call`/`redo` loop of a generated `main` records exactly the rows the specification function records |
| Predicates.SentinelExec | src/module/Predicate.ts:10-12 | `exec` of a sentinel returns the sentinel itself |
| Predicates.SentinelName | src/module/Predicate.ts:14-16 | the sentinels print as `Success` and `Failure` |
| Variables.TruncRem | src/module/Variable.ts:105-107 | JavaScript's `%` on integers takes the sign of the dividend and is smaller than the divisor in size |
| Variables.TruncDiv | src/module/Variable.ts:101-103 | the integer quotient is truncated toward zero |
| Variables.TruncDivRem | src/module/Variable.ts:101-107 | quotient and remainder recombine to the dividend |
| Variables.ReadValue | src/module/Variable.ts:32-35 | `getValue` returns the bound value and throws `null value` exactly on an unbound cell |
| Variables.ReadNumber | src/module/Variable.ts:42-47 | `getNumberValue` returns exactly a number held and otherwise throws `Value is not a number` |
| Variables.ReadString | src/module/Variable.ts:54-59 | `getStringValue` returns exactly a string held and otherwise throws `Value is not a string` |
| Variables.CellToString | src/module/Variable.ts:65-68 | an unbound cell prints as `null`, a bound one as its value |
| Variables.Perform | src/module/Variable.ts:109-123 | an operation succeeds exactly on two numbers; an unbound operand throws `null value`, another kind `Incompatible types for` and the operation's name |
| Variables.AddValues | src/module/Variable.ts:85-91 | `add` concatenates two strings and otherwise is the arithmetic operation |
| Variables.AddThenSub | src/module/Variable.ts:85-95 | subtracting what was added gives the original number back |
| Variables.DivModRecombine | src/module/Variable.ts:101-107 | `div` and `mod` of integers recombine to the dividend |
| Variables.Variable.constructor | src/module/Variable.ts:15-18 | a new cell is unbound, or bound to the value given |
| Variables.Variable.SetValue | src/module/Variable.ts:24-26 | after `setValue` the cell holds that value and `getValue` returns it |
| Variables.Variable.GetValue | src/module/Variable.ts:32-35 | `getValue` is Variables.ReadValue of the cell |
| Variables.Variable.GetNumberValue | src/module/Variable.ts:42-47 | `getNumberValue` is Variables.ReadNumber of the cell |
| Variables.Variable.GetStringValue | src/module/Variable.ts:54-59 | `getStringValue` is Variables.ReadString of the cell |
| Variables.Variable.ToString | src/module/Variable.ts:65-68 | `toString` is Variables.CellToString of the cell |
| Variables.Variable.Add | src/module/Variable.ts:85-91 | `add` returns a fresh cell holding the sum or concatenation, or throws, and leaves both operands alone |
| Variables.Variable.Operate | src/module/Variable.ts:93-123 | `sub`, `mul`, `div` and `mod` return a fresh cell holding the result, or throw, and leave both operands alone |
| Lists.JoinComma | src/module/List.ts:44-46 | no parts join to the empty text and one part to itself |
| Lists.JoinCommaLength | src/module/List.ts:44-46 | the joined text is as long as the parts plus two characters for each `, ` between two of them |
| Lists.JoinCommaAppend | src/module/List.ts:44-46 | joining two non-empty runs of parts is joining each with one `, ` between them, which with the no-part and one-part cases fixes the whole text |
| Lists.List.constructor | src/module/List.ts:16-21 | one fresh cell per element, in order, each holding its element, no two the same object |
| Lists.List.GetLength | src/module/List.ts:27-29 | the number of cells |
| Lists.List.GetByIndex | src/module/List.ts:36-38 | the cell at an index within the list, undefined outside it |
| Lists.List.CellStrings | src/module/List.ts:45 | one string per cell, each the cell's `toString` |
| Lists.List.ToString | src/module/List.ts:44-46 | an empty list prints as the empty text and a one-element list as its cell |
| Objects.PresentPrefix | src/module/Object.ts:21-25 | the pairs before the first key without a cell all have cells |
| Objects.LastWriteUnreached | src/module/Object.ts:21-25 | a cell reached by no key is not written |
| Objects.LastWriteOwnKey | src/module/Object.ts:21-25 | without shared cells, each key's cell receives exactly the value paired with that key |
| Objects.VObject.constructor | src/module/Object.ts:14-19 | one fresh, unshared cell per key of the record, each holding its value |
| Objects.VObject.SetValue | src/module/Object.ts:21-25 | each pair's value goes into its key's cell, in order; a key without a cell throws `Cannot read properties of undefined (reading 'setValue')` once the pairs before it are written |
| Objects.VObject.SetValueByKey | src/module/Object.ts:27-36 | a cell argument replaces the key's cell and writes nothing; a value is written into the existing cell, and a missing key throws `Cannot read properties of undefined (reading 'setValue')` |
| Objects.VObject.GetValue | src/module/Object.ts:38-44 | the record of every cell's value, with the same keys, or `null value` when a cell is unbound |
| Objects.VObject.GetLength | src/module/Object.ts:50-52 | the number of keys |
| Objects.VObject.GetByKey | src/module/Object.ts:59-61 | a key's value; a missing key throws `Cannot read properties of undefined (reading 'getValue')`, an unbound cell throws `null value` |
| For.Cu1Step | src/module/For.ts:76-88 | `cu1` binds x to the counter and returns the continuation while the counter is at most `to`, registering `cu2` when another value fits; otherwise it fails and changes nothing; `by` and `to` are reread after the binding, so an `x` aliased to `to` registers `cu2` exactly when the step is not positive, and a `by` holding no number throws after `x` is bound |
| For.Cu2Step | src/module/For.ts:95-102 | `cu2` adds the step; past `to` it fails without popping, otherwise it pops once and runs `cu1` |
| For.ExecStep | src/module/For.ts:60-71 | `exec` starts a new instance whose counter is `from`'s value, then runs `cu1` |
| For.RetryAfterPushSucceeds | src/module/For.ts:79-101 | a `cu2` that `cu1` registered never takes its failure branch while the bounds are unchanged: it binds the next value |
| For.New | src/module/For.ts:34-58 | number operands become fresh cells, cell operands are used as they are, and no existing cell changes |
| For.Install | src/module/For.ts:42-56 | one operand: a number becomes a fresh cell holding it, a cell is kept |
| For.Cu1 | src/module/For.ts:76-88 | the machine's `cu1` is For.Cu1Step |
| For.Cu2 | src/module/For.ts:95-102 | the machine's `cu2` is For.Cu2Step |
| For.Exec | src/module/For.ts:60-71 | the machine's `exec` is For.ExecStep |
| Member.Cu1Step | src/module/Member.ts:49-60 | `cu1` binds x to element i and returns the continuation while i is within the list, registering `cu2` when another element is left; past the end it fails and changes nothing; a negative index throws `Cannot read properties of undefined (reading 'getValue')` |
| Member.Cu2Step | src/module/Member.ts:67-75 | `cu2` advances the index; at the end it fails without popping, otherwise it pops once and runs `cu1` |
| Member.ExecStep | src/module/Member.ts:33-44 | `exec` starts a new instance at index 0 and runs `cu1`; an empty list fails at once |
| Member.EmptyListFails | src/module/Member.ts:50-59 | an empty list fails and registers no choice point |
| Member.Cu1 | src/module/Member.ts:49-60 | the machine's `cu1` is Member.Cu1Step |
| Member.Cu2 | src/module/Member.ts:67-75 | the machine's `cu2` is Member.Cu2Step |
| Member.Exec | src/module/Member.ts:33-44 | the machine's `exec` is Member.ExecStep |
| Case.FirstTrue | src/module/Case.ts:40-45 | the first case whose condition holds, and none exactly when no condition holds |
| Case.ExecStep | src/module/Case.ts:39-47 | `exec` binds the target to the first true case's value and returns the continuation, or fails and binds nothing |
| Case.LaterCasesIgnored | src/module/Case.ts:40-45 | cases after the first true one do not affect the outcome |
| Case.Exec | src/module/Case.ts:39-47 | the loop over the cases is Case.ExecStep |
| Test.New | src/module/Test.ts:26-34 | without a result cell the goal gets a fresh cell holding false |
| Test.ExecStep | src/module/Test.ts:36-56 | `exec` leaves false in the result cell and returns the continuation |
| Test.ResultAlwaysFalse | src/module/Test.ts:51-55 | whatever the condition, the result cell holds false afterwards and the goal never fails |
| Test.Exec | src/module/Test.ts:36-56 | the machine's `exec` is Test.ExecStep |
| Enumeration.ClearTop | src/module/VM.ts:37-39 | a stack with no written slot at or below `ccp` has no top choice point |
| Enumeration.RedoKeepsClear | src/module/VM.ts:29-46 | popping what was just pushed keeps the stack clear |
| Enumeration.EmptyIsClear | src/module/VM.ts:11-23 | a new machine is clear |
| Enumeration.RangeValues | src/module/For.ts:77-98 | the k-th value of a range is `from + k*step`, each at most `to`, and the next would exceed it |
| Enumeration.RangeIncreasing | src/module/For.ts:77-98 | a range with a positive step is strictly increasing |
| Enumeration.RowsIndex | src/module/sample.ts:137-139 | row k records the k-th value |
| Enumeration.ReadOne | src/module/sample.ts:138 | recording one bound cell |
| Enumeration.ReadTwo | src/module/sample.ts:137-139 | recording two bound cells |
| Enumeration.DriveOne | src/module/sample.ts:136-140 | a round records the one cell's value, then runs `redo` |
| Enumeration.BindsDrive | src/module/sample.ts:136-140 | a run whose successive answers bind x to the values records exactly those values, then stops on false |
| Enumeration.ForEnters | src/module/For.ts:76-88 | `cu1` with the counter at most `to` succeeds, binding x |
| Enumeration.ForRedo | src/module/For.ts:95-101 | a `redo` into a For retry unit pops twice and binds the next value |
| Enumeration.ForRounds | src/module/For.ts:60-108 | from a success binding x to i, the successive `redo`s bind x to i, i+step, … up to `to`, and then are false |
| Enumeration.ForEnumerates | src/module/For.ts:60-108 | a For goal run by `call` and then `redo` until false records from, from+step, … each at most `to`, in order, once each |
| Enumeration.MemberRedo | src/module/Member.ts:67-74 | a `redo` into a Member retry unit pops twice and binds the next element |
| Enumeration.MemberRounds | src/module/Member.ts:37-82 | from a success binding x to element i, the successive `redo`s bind the later elements in order, and then are false |
| Enumeration.MemberEnumerates | src/module/Member.ts:37-82 | a Member goal run by `call` and then `redo` until false records the list's elements in order, each once |
| Enumeration.NestedInnerCall | src/module/For.ts:76-88 | the inner For of a nested pair registers its retry unit above the outer one's |
| Enumeration.NestedFirstCall | src/module/For.ts:60-88 | the first `call` of two nested For goals binds both to their first values and registers two retry units |
| Enumeration.NestedRedo | src/module/For.ts:95-101 | the first `redo` pops the inner unit and the unit pops the outer one as well |
| Enumeration.NestedForLosesOuterChoice | src/module/For.ts:95-101 | two nested For goals over 0..1 record two rows, not four: the outer choice point is lost |
| Sample.NumberIn | src/module/sample.ts:35 | `getValue` of a cell the module uses as a number: its number, or a throw |
| Sample.Method1Step | src/module/sample.ts:68-72 | `Method_1` binds N to B and returns the continuation |
| Sample.AltStep | src/module/sample.ts:92-98 | `Method_2_cu1` binds B1 to B + S and returns `Method_2_cu2`, leaving the stack alone |
| Sample.AltNextStep | src/module/sample.ts:105-114 | `Method_2_cu2` returns a fresh ForClass on B1 and changes nothing |
| Sample.ExecStep | src/module/sample.ts:30-56 | `exec` allocates B1 and chooses by the two guards: fail, try both alternatives, or run one |
| Sample.PositiveStepCases | src/module/sample.ts:34-55 | with a positive step only three cases occur, and N is bound to B whenever B is at most E |
| Sample.Method1 | src/module/sample.ts:68-72 | the machine's `Method_1` is Sample.Method1Step |
| Sample.Alt | src/module/sample.ts:92-98 | the machine's `Method_2_cu1` is Sample.AltStep |
| Sample.Exec | src/module/sample.ts:30-56 | the machine's `exec` is Sample.ExecStep |
| SampleMain.AltRuns | src/module/sample.ts:89-116 | `Method_2`'s two units run without a choice and end in a fresh ForClass on B + S |
| SampleMain.FreshSucceeds | src/module/sample.ts:30-47 | a ForClass step returning the success sentinel makes `call` true |
| SampleMain.SampleRedo | src/module/sample.ts:41-47 | a `redo` into the registered `Method_2` binds N to B + S and registers the next alternative |
| SampleMain.SampleRounds | src/module/sample.ts:9-122 | from a success binding N to B, the successive `redo`s bind N to B, B+S, … up to E, and then are false |
| SampleMain.SampleEnumerates | src/module/sample.ts:124-143 | with a positive step, `main` records N = B, B+S, B+2S, … up to E in order, and nothing when B > E |
| SampleMain.MainMemory | src/module/sample.ts:125-130 | `main` builds the cells B, E, S from the input and N = 0 |
| SampleMain.RunSample | src/module/sample.ts:124-143 | `main(input)` records exactly what the `call`/`redo` loop records, which is the range from B to E by S when S is positive |

## Left out

- Floating-point numbers: every numeric value of the source is a JavaScript `number`; the model uses unbounded integers, so overflow to infinity, rounding and `NaN` are not modelled, and division is the integer division of `Variables.TruncDiv`.
- The decimal.js conversion in the constructor of `Case` (`src/module/Case.ts:29-31`): the cases arrive already converted.
- Console output: `console.error` in `reportError` is replaced by returning the text it would print, and the `console.log` calls of `src/module/sample.ts` are dropped.
- The React interface (`src/App.tsx`), the in-browser bundler (`src/lib/browser-bundle/index.ts`), file loading (`src/util/getFileString.ts`), the decimal-based generated module `src/module/sa.ts` and the floating-point sample at the repository root are not part of this model.
- `createInnerClass` (`src/module/util.ts`) is not modelled as code: the nested continuation units it builds are datatype constructors holding their outer environment and the index of their method instance's counter.
- The node kinds LENGTH, NTH, LIST_SUM, EXP and CASE, which are missing from the constants file: the parser's `exp(...)` node and the converter's CASE handler are modelled through the `undefined` keys they produce (a `TypeError`), and case expressions never reach the code generator.
- JavaScript object key order: `VObject` keeps its cells in a map, so `toString` and the key iterator of `src/module/Object.ts`, whose text depends on insertion order, are not modelled; neither are the `[Symbol.iterator]` methods of `List` and `VObject`.
- Lexer.IsScriptLetter: the Hiragana, Katakana, Han and Greek ranges are those of Scripts.txt in Unicode 15.1; an engine built on another Unicode version assigns the code points added or moved since then differently.
- Stack depth: the depth at which the JavaScript call stack overflows depends on the engine. The scheduler's dependency walk takes a `fuel` bound instead and throws `Maximum call stack size exceeded` past it; SortStmt.ScheduleMoreFuel proves that a larger bound changes no other outcome. The other recursions (the parser, the lowering) are modelled without a depth limit.
- Engine.RunCall: `call` and `redo` are stated with a step budget; a run that exhausts it answers `OutOfFuel`, where JavaScript would loop for ever. Engine.MoreFuel proves the budget never changes an answer it allows.
- SortStmt.Schedule: a constraint with no computation of its target is reported as the `operand` TypeError at once; the source first runs the rounds of `mergeBlocks` for the pairs before it, whose dependency walk could overflow the stack first.
- Grammar.ParseUnary: its own contract states only that it consumes a token; the node it builds is stated for every input by GrammarFacts.NegStep and GrammarFacts.PlusStep.
- Grammar.ParsePow: its own contract states only that it consumes a token; the node it builds is stated for every input by GrammarFacts.PowStep and GrammarFacts.PowEnd.
- Grammar.Follows: the parse functions promise that the error list never gets shorter, not that the earlier errors are kept as a prefix.
- Grammar.ParseChain: `parseLogical`, `parseTerm`, `parseEquality`, `parseRelational`, `parseAdd` and `parseMul` are one function over a table of levels, with the operators of each level in the source's order of tests.
- Parser.Parser.IsCurrent: `isCurrent` with a literal argument is resolved to a text test or a kind test once, by the lemmas Grammar.TextMatches and Grammar.KindNamesAreTokenTypes; `consume` of a token kind the parser has just tested is a plain `next`.
- Loops that the source writes inline are, in several places, written as helper methods with their own contracts (the parser's item loops, the code generator's class loop, the lexer's end of input).
- Pipeline.Compilation: the file name is not a parameter, since it only feeds the report; Pipeline.Driver.Compiler takes it.

## Findings

| source | as written | input that shows it | evidently intended | confidence | as-written member | corrected member |
|---|---|---|---|---|---|---|
| src/lib/compiler/sortStmt.ts:173-192 | when the backward walk of a pass runs past index 0, `j` ends at -1, is not moved back, the merged block is written to property -1 instead of an element, and `i` becomes 0, so the pass restarts on a list whose head is still of its phase and never ends | a block list whose first block has the pass's phase, e.g. a computation followed by its constraint with no generator before them | the merged block replaces the run at its first index and the scan resumes after it | not executed | SortStmt.StallAtHead | SortStmt.CalcTestMergedSeparated |
