/**
 * The recursive-descent parser of src/lib/compiler/parser.ts, as functions of the
 * parser's fields.
 *
 * Every method of the source's `Parser` class reads and updates the same handful of
 * fields (the token cursor, the two scopes, the local-variable list, the vector
 * parameter counter and the error list). `PState` holds those fields, and each
 * `Parse*` function below maps the fields before a call to the node the method
 * returns and the fields after it. The class in parser.dfy is proved to compute
 * exactly these functions.
 *
 * Reading a token past the end of the list yields `undefined` in the source, and
 * the next property access on it throws a TypeError; that throw is `Crashed` here.
 * The cursor only ever moves over a token that was just read, so it never passes
 * the length of the list (`Valid`).
 */
module Grammar {
  import opened Base
  import opened Syntax

  /** The fields of a parser: tokenList, current, localVarList, scope, paramMemberIndex, errorList, program. */
  datatype PState = PState(
    tokens: seq<Token>,
    current: nat,
    fnames: seq<string>,
    localVars: seq<VarNode>,
    moduleScope: seq<VarNode>,
    blockScope: seq<VarNode>,
    paramMemberIndex: int,
    errors: seq<CompileError>,
    program: seq<ModuleNode>)

  /** A parse either returns a node and the updated fields, or throws a TypeError. */
  datatype Parsed<T> = Parsed(value: T, st: PState) | Crashed
  {
    predicate IsFailure() { Crashed? }

    function PropagateFailure<U>(): Parsed<U>
      requires Crashed?
    {
      Crashed
    }

    function Extract(): (T, PState)
      requires Parsed?
    {
      (value, st)
    }
  }

  /**
   * A method of the parser object agrees with a parse function when it returns
   * nothing exactly where the function throws, and otherwise returns the same
   * node and leaves the object's fields equal to the function's state.
   */
  predicate Agrees<T(==)>(r: Option<T>, p: Parsed<T>, st: PState) {
    match p
    case Crashed => r.None?
    case Parsed(v, s) => r == Some(v) && st == s
  }

  /** What `exec` returns. */
  datatype ParseResult = ParseResult(errors: seq<CompileError>, program: Program)

  /** The fields of a new parser reading `tokens`. */
  function Initial(tokens: seq<Token>): PState {
    PState(tokens, 0, [], [], [], [], -1, [], [])
  }

  predicate Valid(st: PState) {
    st.current <= |st.tokens|
  }

  function Remaining(st: PState): nat
    requires Valid(st)
  {
    |st.tokens| - st.current
  }

  /**
   * The later fields of a parse below the parameters keep the token list, never
   * move the cursor back, never shorten the error list and keep the vector
   * parameter counter.
   */
  predicate Follows(st: PState, st': PState) {
    && Valid(st')
    && st'.tokens == st.tokens
    && st.current <= st'.current
    && |st.errors| <= |st'.errors|
    && st'.paramMemberIndex == st.paramMemberIndex
  }

  /**
   * The later fields of a parse of parameters or modules: as in Follows, except
   * that the vector parameter counter may go up. Nothing ever lowers it.
   */
  predicate FollowsCounting(st: PState, st': PState) {
    && Valid(st')
    && st'.tokens == st.tokens
    && st.current <= st'.current
    && |st.errors| <= |st'.errors|
    && st.paramMemberIndex <= st'.paramMemberIndex
  }

  /** A parse that returns has consumed at least one token. */
  predicate Moves<T>(st: PState, r: Parsed<T>) {
    r.Parsed? ==> Follows(st, r.st) && st.current < r.st.current
  }

  predicate Stays<T>(st: PState, r: Parsed<T>) {
    r.Parsed? ==> Follows(st, r.st)
  }

  predicate MovesCounting<T>(st: PState, r: Parsed<T>) {
    r.Parsed? ==> FollowsCounting(st, r.st) && st.current < r.st.current
  }

  predicate StaysCounting<T>(st: PState, r: Parsed<T>) {
    r.Parsed? ==> FollowsCounting(st, r.st)
  }

  // ---------------------------------------------------------------------------
  // Tokens: peek, next, isCurrent, expect, consume.

  /** The values of TOKEN_TYPE; `isCurrent` compares the kind for these and the text otherwise. */
  const TokenTypeNames: seq<string> := ["reserved", "ident-var", "ident-func", "literal-atom", "string", "number", "new-line", "EOF"]

  /** `isCurrent(c)`: the token's kind when `c` names a token type, its text otherwise. */
  predicate Matches(t: Token, c: string) {
    if c in TokenTypeNames then KindName(t.kind) == c else t.value == c
  }

  /** A text that names no token type is matched against the token's text. */
  lemma TextMatches(t: Token, c: string)
    requires c !in TokenTypeNames
    ensures Matches(t, c) <==> t.value == c
  {
  }

  /** A token-type name matches exactly the tokens of that kind. */
  lemma KindNamesAreTokenTypes(t: Token, k: TokenKind)
    ensures Matches(t, KindName(k)) <==> t.kind == k
  {
    assert KindName(k) in TokenTypeNames by {
      match k
      case Reserved => assert KindName(k) == TokenTypeNames[0];
      case IdentVar => assert KindName(k) == TokenTypeNames[1];
      case IdentFunc => assert KindName(k) == TokenTypeNames[2];
      case AtomLit => assert KindName(k) == TokenTypeNames[3];
      case StringLit => assert KindName(k) == TokenTypeNames[4];
      case Number => assert KindName(k) == TokenTypeNames[5];
      case Newline => assert KindName(k) == TokenTypeNames[6];
      case Eof => assert KindName(k) == TokenTypeNames[7];
    }
  }

  function Cur(st: PState): Token
    requires st.current < |st.tokens|
  {
    st.tokens[st.current]
  }

  /**
   * `isCurrent` of a literal text, which names no token type (TextMatches): the
   * current token has that text.
   */
  predicate At(st: PState, c: string)
    requires st.current < |st.tokens|
  {
    Cur(st).value == c
  }

  /** `isCurrent(TOKEN_TYPE.…)`: the current token has that kind (KindNamesAreTokenTypes). */
  predicate AtKind(st: PState, k: TokenKind)
    requires st.current < |st.tokens|
  {
    Cur(st).kind == k
  }

  function Next(st: PState): (st': PState)
    requires st.current < |st.tokens|
    ensures Follows(st, st') && st'.current == st.current + 1
  {
    st.(current := st.current + 1)
  }

  function Report(st: PState, message: string, pos: Position): (st': PState)
    ensures st' == st.(errors := st.errors + [CompileError(message, pos)])
    ensures Valid(st) ==> Follows(st, st') && st'.current == st.current
  {
    st.(errors := st.errors + [CompileError(message, pos)])
  }

  function Expect(st: PState, c: string): (st': PState)
    requires st.current < |st.tokens|
    ensures Follows(st, st') && st'.current == st.current
    ensures At(st, c) ==> st' == st
    ensures !At(st, c) ==> st'.errors == st.errors + [CompileError("Expected " + c + ", but got " + JsonQuote(Cur(st).value), Cur(st).pos)]
  {
    if At(st, c) then st
    else Report(st, "Expected " + c + ", but got " + JsonQuote(Cur(st).value), Cur(st).pos)
  }

  /** `consume` of a token that is there: returns it and moves on, reporting a mismatch. */
  function Take(st: PState, c: string): (r: (Token, PState))
    requires st.current < |st.tokens|
    ensures r.0 == Cur(st) && r.1 == Next(Expect(st, c))
    ensures Follows(st, r.1) && r.1.current == st.current + 1
  {
    (Cur(st), Next(Expect(st, c)))
  }

  /** `consume`, which throws past the last token. */
  function Consume(st: PState, c: string): (r: Parsed<Token>)
    requires Valid(st)
    ensures r.Crashed? <==> st.current == |st.tokens|
    ensures r.Parsed? ==> (r.value, r.st) == Take(st, c)
    ensures Moves(st, r)
  {
    if st.current == |st.tokens| then Crashed else var (t, s) := Take(st, c); Parsed(t, s)
  }

  // ---------------------------------------------------------------------------
  // Scopes: findVar and pushVar.

  /** The first variable of `vs` named `name`. */
  function FirstNamed(vs: seq<VarNode>, name: string): Option<VarNode>
    decreases |vs|
  {
    if vs == [] then None
    else if vs[0].name == name then Some(vs[0])
    else FirstNamed(vs[1..], name)
  }

  /**
   * FirstNamed finds a variable of that name that no variable of that name
   * precedes, and finds none exactly when no variable has that name.
   */
  lemma {:induction false} FirstNamedSpec(vs: seq<VarNode>, name: string)
    ensures FirstNamed(vs, name).Some? ==>
      exists k :: 0 <= k < |vs| && vs[k] == FirstNamed(vs, name).value && vs[k].name == name && forall j :: 0 <= j < k ==> vs[j].name != name
    ensures FirstNamed(vs, name).None? <==> forall k :: 0 <= k < |vs| ==> vs[k].name != name
    decreases |vs|
  {
    if vs == [] {
    } else if vs[0].name == name {
      assert vs[0] == FirstNamed(vs, name).value;
    } else {
      var r := FirstNamed(vs[1..], name);
      FirstNamedSpec(vs[1..], name);
      if r.Some? {
        var k :| 0 <= k < |vs[1..]| && vs[1..][k] == r.value && vs[1..][k].name == name && (forall j :: 0 <= j < k ==> vs[1..][j].name != name);
        assert vs[k + 1] == r.value;
        forall j | 0 <= j < k + 1 ensures vs[j].name != name {
          if j > 0 { assert vs[j] == vs[1..][j - 1]; }
        }
      } else {
        forall k | 0 <= k < |vs| ensures vs[k].name != name {
          if k > 0 { assert vs[k] == vs[1..][k - 1]; }
        }
      }
    }
  }

  /** `findVar`: the first variable named like the token, module scope first. */
  function FindVar(st: PState, tok: Token): Option<VarNode> {
    FirstNamed(st.moduleScope + st.blockScope, tok.value)
  }

  /** A variable of the module scope hides every variable of the block scope. */
  lemma {:induction false} FirstNamedConcat(a: seq<VarNode>, b: seq<VarNode>, name: string)
    ensures FirstNamed(a + b, name) == if FirstNamed(a, name).Some? then FirstNamed(a, name) else FirstNamed(b, name)
    decreases |a|
  {
    if a != [] {
      assert (a + b)[1..] == a[1..] + b;
      FirstNamedConcat(a[1..], b, name);
    } else {
      assert a + b == b;
    }
  }

  /** findVar searches the module scope before the block scope. */
  lemma FindVarModuleFirst(st: PState, tok: Token)
    ensures FindVar(st, tok) == if FirstNamed(st.moduleScope, tok.value).Some? then FirstNamed(st.moduleScope, tok.value) else FirstNamed(st.blockScope, tok.value)
  {
    FirstNamedConcat(st.moduleScope, st.blockScope, tok.value);
  }

  /** The variable `pushVar` returns when the name is already bound to another type kind. */
  function Clash(tok: Token, isInput: bool): VarNode {
    VarNode("dummy", Type(DummyType, tok, []), tok, isInput)
  }

  /**
   * `pushVar`: a name already in scope is checked against the new type kind (one
   * error and a "dummy" variable on a mismatch, the existing variable otherwise);
   * a new name is recorded in the local-variable list and in one scope.
   */
  function PushVar(st: PState, tok: Token, ty: Type, isBlock: bool, isInput: bool): (r: (VarNode, PState))
    ensures FindVar(st, tok).Some? && FindVar(st, tok).value.valueType.kind != ty.kind ==>
      r == (Clash(tok, FindVar(st, tok).value.isInput),
            st.(errors := st.errors + [CompileError("Variable " + JsonQuote(tok.value) + " is already defined as " + TypeKindName(FindVar(st, tok).value.valueType.kind) + ".", ty.token.pos)]))
    ensures FindVar(st, tok).Some? && FindVar(st, tok).value.valueType.kind == ty.kind ==> r == (FindVar(st, tok).value, st)
    ensures FindVar(st, tok).None? ==> (
      && r.0 == VarNode(tok.value, ty, tok, isInput)
      && r.1 == st.(localVars := st.localVars + [r.0],
                    blockScope := if isBlock then st.blockScope + [r.0] else st.blockScope,
                    moduleScope := if isBlock then st.moduleScope else st.moduleScope + [r.0]))
  {
    match FindVar(st, tok)
    case Some(fv) =>
      if fv.valueType.kind != ty.kind then
        (Clash(tok, fv.isInput),
         Report(st, "Variable " + JsonQuote(tok.value) + " is already defined as " + TypeKindName(fv.valueType.kind) + ".", ty.token.pos))
      else (fv, st)
    case None =>
      var v := VarNode(tok.value, ty, tok, isInput);
      (v, st.(localVars := st.localVars + [v],
              blockScope := if isBlock then st.blockScope + [v] else st.blockScope,
              moduleScope := if isBlock then st.moduleScope else st.moduleScope + [v]))
  }

  lemma {:induction false} FirstNamedAppend(vs: seq<VarNode>, v: VarNode, name: string)
    requires FirstNamed(vs, name).None? && v.name == name
    ensures FirstNamed(vs + [v], name) == Some(v)
  {
    FirstNamedConcat(vs, [v], name);
  }

  /**
   * After `pushVar` the name is in scope: bound to the new variable when it was
   * new, and to the variable found before otherwise.
   */
  lemma PushVarDeclares(st: PState, tok: Token, ty: Type, isBlock: bool, isInput: bool)
    ensures var (v, st') := PushVar(st, tok, ty, isBlock, isInput);
      FindVar(st', tok) == if FindVar(st, tok).Some? then FindVar(st, tok) else Some(v)
  {
    var (v, st') := PushVar(st, tok, ty, isBlock, isInput);
    if FindVar(st, tok).None? {
      FirstNamedConcat(st.moduleScope, st.blockScope, tok.value);
      if isBlock {
        FirstNamedAppend(st.moduleScope + st.blockScope, v, tok.value);
        assert st'.moduleScope + st'.blockScope == (st.moduleScope + st.blockScope) + [v];
      } else {
        FirstNamedConcat(st.moduleScope + [v], st.blockScope, tok.value);
        FirstNamedAppend(st.moduleScope, v, tok.value);
      }
    }
  }

  // ---------------------------------------------------------------------------
  // Types.

  /**
   * The names `isSimpleTypeName` tries, in order: the SIMPLE_TYPE values, then the
   * one-letter abbreviations.
   */
  const TypeNames: seq<(string, TypeKind)> := [
    ("integer", Integer), ("real", Real), ("atom", AtomType), ("bool", BoolType),
    ("i", Integer), ("r", Real), ("b", BoolType), ("a", AtomType)]

  /** The kind of the first name of `names` that is the token's text. */
  function FirstTypeName(names: seq<(string, TypeKind)>, t: Token): Option<TypeKind>
    decreases |names|
  {
    if names == [] then None
    else if t.value == names[0].0 then Some(names[0].1)
    else FirstTypeName(names[1..], t)
  }

  /** FirstTypeName finds the kind of a name that is the token's text, and finds none exactly when no name is. */
  lemma {:induction false} FirstTypeNameSpec(names: seq<(string, TypeKind)>, t: Token)
    ensures FirstTypeName(names, t).Some? ==> exists k :: 0 <= k < |names| && names[k].1 == FirstTypeName(names, t).value && t.value == names[k].0
    ensures FirstTypeName(names, t).None? <==> forall k :: 0 <= k < |names| ==> t.value != names[k].0
    decreases |names|
  {
    if names != [] && t.value != names[0].0 {
      var r := FirstTypeName(names[1..], t);
      FirstTypeNameSpec(names[1..], t);
      if r.Some? {
        var k :| 0 <= k < |names[1..]| && names[1..][k].1 == r.value && t.value == names[1..][k].0;
        assert names[k + 1] == names[1..][k];
      } else {
        forall k | 0 <= k < |names| ensures t.value != names[k].0 {
          if k > 0 { assert names[k] == names[1..][k - 1]; }
        }
      }
    }
  }

  /** `isSimpleTypeName`: the kind a simple type name or its abbreviation names. */
  function SimpleTypeName(st: PState): Option<TypeKind>
    requires st.current < |st.tokens|
  {
    FirstTypeName(TypeNames, Cur(st))
  }

  /** A simple type name names one of the four simple kinds, and each spelling names its own kind. */
  lemma SimpleTypeNameKinds(st: PState)
    requires st.current < |st.tokens|
    ensures SimpleTypeName(st).Some? ==> SimpleTypeName(st).value in {Integer, Real, AtomType, BoolType}
    ensures Cur(st).value in {"integer", "i"} ==> SimpleTypeName(st) == Some(Integer)
    ensures Cur(st).value in {"real", "r"} ==> SimpleTypeName(st) == Some(Real)
    ensures Cur(st).value in {"bool", "b"} ==> SimpleTypeName(st) == Some(BoolType)
    ensures Cur(st).value in {"atom", "a"} ==> SimpleTypeName(st) == Some(AtomType)
  {
    FirstTypeNameSpec(TypeNames, Cur(st));
  }

  /** `parseType`. */
  function ParseType(st: PState): (r: Parsed<Type>)
    requires Valid(st)
    ensures Moves(st, r)
    ensures r.Parsed? ==> r.value.token == Cur(st)
    decreases Remaining(st), 1
  {
    if st.current == |st.tokens| then Crashed
    else
      var tok := Cur(st);
      match SimpleTypeName(st)
      case Some(k) => Parsed(Type(k, tok, []), Next(st))
      case None =>
        if At(st, "[") then ParseStructType(ListType, "]", tok, Next(st))
        else if At(st, "{") then ParseStructType(VectorType, "}", tok, Next(st))
        else Parsed(Type(DummyType, tok, []), Next(Report(st, "Expected type, but got " + JsonQuote(tok.value) + ".", tok.pos)))
  }

  /** The current token can begin a type: a simple type name, "[" or "{". */
  predicate StartsType(st: PState)
    requires st.current < |st.tokens|
  {
    SimpleTypeName(st).Some? || At(st, "[") || At(st, "{")
  }

  /** The members and closing bracket of a list or vector type. */
  function ParseStructType(kind: TypeKind, close: string, tok: Token, st: PState): (r: Parsed<Type>)
    requires Valid(st)
    ensures Moves(st, r)
    ensures r.Parsed? ==> r.value.kind == kind && r.value.token == tok
    decreases Remaining(st), 2
  {
    if st.current == |st.tokens| then Crashed
    else if StartsType(st) then
      var (first, s1) :- ParseType(st);
      var (members, s2) :- TypeList([first], s1);
      var (_, s3) := Take(s2, close);
      Parsed(Type(kind, tok, members), s3)
    else
      var (_, s1) := Take(st, close);
      Parsed(Type(kind, tok, []), s1)
  }

  /** The `while (isCurrent(","))` loop over further member types. */
  function TypeList(members: seq<Type>, st: PState): (r: Parsed<seq<Type>>)
    requires Valid(st)
    ensures Stays(st, r)
    ensures r.Parsed? ==> r.st.current < |r.st.tokens| && !At(r.st, ",")
    ensures r.Parsed? ==> members <= r.value
    decreases Remaining(st), 0
  {
    if st.current == |st.tokens| then Crashed
    else if At(st, ",") then
      var (m, s1) :- ParseType(Next(st));
      TypeList(members + [m], s1)
    else Parsed(members, st)
  }

  // ---------------------------------------------------------------------------
  // Expressions: the precedence ladder.

  /** The binary levels of the ladder, loosest first. */
  datatype Level = OrLevel | AndLevel | EqualityLevel | RelationalLevel | AddLevel | MulLevel

  /** An operator of a level; a swapped rule puts the new operand on the left. */
  datatype OpRule = OpRule(symbol: string, op: BinOp, swapped: bool)

  /** The operators each `for(;;)` loop tests, in the order it tests them. */
  function Rules(lv: Level): seq<OpRule> {
    match lv
    case OrLevel => [OpRule("or", Or, false)]
    case AndLevel => [OpRule("and", And, false)]
    case EqualityLevel => [OpRule("=", Eq, false), OpRule("\\=", Ne, false)]
    case RelationalLevel => [OpRule("<", Lt, false), OpRule("=<", Le, false), OpRule(">", Lt, true), OpRule(">=", Le, true)]
    case AddLevel => [OpRule("+", Add, false), OpRule("-", Sub, false)]
    case MulLevel => [OpRule("*", Mul, false), OpRule("/", Div, false), OpRule("mod", Mod, false)]
  }

  /** The first rule whose symbol is the token's text. */
  function FirstRule(rules: seq<OpRule>, t: Token): Option<OpRule>
    decreases |rules|
  {
    if rules == [] then None
    else if t.value == rules[0].symbol then Some(rules[0])
    else FirstRule(rules[1..], t)
  }

  /** FirstRule finds a rule whose symbol is the token's text, and finds none exactly when no rule's is. */
  lemma {:induction false} FirstRuleSpec(rules: seq<OpRule>, t: Token)
    ensures FirstRule(rules, t).Some? ==> FirstRule(rules, t).value in rules && t.value == FirstRule(rules, t).value.symbol
    ensures FirstRule(rules, t).None? <==> forall k :: 0 <= k < |rules| ==> t.value != rules[k].symbol
    decreases |rules|
  {
    if rules != [] && t.value != rules[0].symbol {
      FirstRuleSpec(rules[1..], t);
      forall k | 0 < k < |rules| ensures rules[k] == rules[1..][k - 1] {
      }
    }
  }

  /** The node one loop iteration builds from the node so far and the new operand. */
  function Combine(rule: OpRule, tok: Token, node: Expr, operand: Expr): (e: Expr)
    ensures e.Binary? && e.token == tok && e.op == rule.op
    ensures e.lhs == (if rule.swapped then operand else node)
    ensures e.rhs == (if rule.swapped then node else operand)
  {
    if rule.swapped then Binary(tok, rule.op, operand, node) else Binary(tok, rule.op, node, operand)
  }

  function ChainRank(lv: Level): nat {
    match lv
    case OrLevel => 30
    case AndLevel => 28
    case EqualityLevel => 25
    case RelationalLevel => 23
    case AddLevel => 21
    case MulLevel => 19
  }

  /** `parseExpr`. */
  function ParseExpr(st: PState): (r: Parsed<Expr>)
    requires Valid(st)
    ensures Moves(st, r)
    decreases Remaining(st), 31
  {
    ParseChain(OrLevel, st)
  }

  /** `parseLogical`, `parseTerm`, `parseEquality`, `parseRelational`, `parseAdd`, `parseMul`. */
  function ParseChain(lv: Level, st: PState): (r: Parsed<Expr>)
    requires Valid(st)
    ensures Moves(st, r)
    decreases Remaining(st), ChainRank(lv)
  {
    var (node, s1) :- ParseOperand(lv, st);
    ChainLoop(lv, node, s1)
  }

  /** The `for(;;)` loop of a level: fold operators and operands into `node`, leftmost first. */
  function ChainLoop(lv: Level, node: Expr, st: PState): (r: Parsed<Expr>)
    requires Valid(st)
    ensures Stays(st, r)
    ensures r.Parsed? ==> r.st.current < |r.st.tokens| && FirstRule(Rules(lv), Cur(r.st)).None?
    decreases Remaining(st), ChainRank(lv)
  {
    if st.current == |st.tokens| then Crashed
    else
      match FirstRule(Rules(lv), Cur(st))
      case None => Parsed(node, st)
      case Some(rule) =>
        var (operand, s1) :- ParseOperand(lv, Next(st));
        ChainLoop(lv, Combine(rule, Cur(st), node, operand), s1)
  }

  /** The level each binary level is built from. */
  function ParseOperand(lv: Level, st: PState): (r: Parsed<Expr>)
    requires Valid(st)
    ensures Moves(st, r)
    decreases Remaining(st), ChainRank(lv) - 1
  {
    match lv
    case OrLevel => ParseChain(AndLevel, st)
    case AndLevel => ParseNotTerm(st)
    case EqualityLevel => ParseChain(RelationalLevel, st)
    case RelationalLevel => ParseChain(AddLevel, st)
    case AddLevel => ParseChain(MulLevel, st)
    case MulLevel => ParsePow(st)
  }

  /** `parseNotTerm`: `not ( equality )` or an equality. */
  function ParseNotTerm(st: PState): (r: Parsed<Expr>)
    requires Valid(st)
    ensures Moves(st, r)
    decreases Remaining(st), 26
  {
    if st.current == |st.tokens| then Crashed
    else if At(st, "not") then
      var (tok, s1) := Take(st, "not");
      var (_, s2) :- Consume(s1, "(");
      var (e, s3) :- ParseChain(EqualityLevel, s2);
      var (_, s4) :- Consume(s3, ")");
      Parsed(Unary(tok, Not, e), s4)
    else ParseChain(EqualityLevel, st)
  }

  /** `parsePow`: a unary, then `^` and a power (right-recursive). */
  function ParsePow(st: PState): (r: Parsed<Expr>)
    requires Valid(st)
    ensures Moves(st, r)
    decreases Remaining(st), 17
  {
    var (node, s1) :- ParseUnary(st);
    if s1.current == |s1.tokens| then Crashed
    else if At(s1, "^") then
      var (rhs, s2) :- ParsePow(Next(s1));
      Parsed(Binary(Cur(s1), Pow, node, rhs), s2)
    else Parsed(node, s1)
  }

  /** `parseUnary`: `-` wraps one primary in a negation, `+` is dropped. */
  function ParseUnary(st: PState): (r: Parsed<Expr>)
    requires Valid(st)
    ensures Moves(st, r)
    decreases Remaining(st), 16
  {
    if st.current == |st.tokens| then Crashed
    else if At(st, "-") then
      var (tok, s1) := Take(st, "-");
      var (p, s2) :- ParsePrimary(s1);
      Parsed(Unary(tok, Neg, p), s2)
    else if At(st, "+") then ParsePrimary(Next(st))
    else ParsePrimary(st)
  }

  /** `parsePrimary`. */
  function ParsePrimary(st: PState): (r: Parsed<Expr>)
    requires Valid(st)
    ensures Moves(st, r)
    decreases Remaining(st), 15
  {
    if st.current == |st.tokens| then Crashed
    else
      var tok := Cur(st);
      if At(st, "sqrt") then
        var (e, s1) :- ParseCallArg(Next(st));
        Parsed(Sqrt(tok, e), s1)
      else if At(st, "exp") then
        var (e, s1) :- ParseCallArg(Next(st));
        Parsed(Exp(tok, e), s1)
      else if At(st, "(") then
        var (e, s1) :- ParseExpr(Next(st));
        var (_, s2) :- Consume(s1, ")");
        Parsed(e, s2)
      else if At(st, "[") then ParseList(st)
      else if At(st, "{") then ParseVector(st)
      else
        match tok.kind
        // consume(TOKEN_TYPE.…) of the kind just tested: no error, the token is passed.
        case Number => Parsed(Num(tok), Next(st))
        case StringLit => Parsed(Str(tok), Next(st))
        case AtomLit => Parsed(AtomExpr(tok), Next(st))
        case IdentVar => ParseVarRef(st)
        case _ => Parsed(Dummy(tok), Next(Report(st, "Unexpected token " + JsonQuote(tok.value) + ".", tok.pos)))
  }

  /** The `( expr )` after `sqrt` and `exp`. */
  function ParseCallArg(st: PState): (r: Parsed<Expr>)
    requires Valid(st)
    ensures Moves(st, r)
    decreases Remaining(st), 32
  {
    var (_, s1) :- Consume(st, "(");
    var (e, s2) :- ParseExpr(s1);
    var (_, s3) :- Consume(s2, ")");
    Parsed(e, s3)
  }

  /** A list literal: unaries separated by commas, a trailing comma allowed. */
  function ParseList(st: PState): (r: Parsed<Expr>)
    requires Valid(st)
    ensures Moves(st, r)
    ensures r.Parsed? ==> r.value.ListExpr?
    decreases Remaining(st), 14
  {
    var (tok, s1) :- Consume(st, "[");
    if s1.current == |s1.tokens| then Crashed
    else if At(s1, "]") then
      var (_, s2) := Take(s1, "]");
      Parsed(ListExpr(tok, []), s2)
    else
      var (first, s2) :- ParseUnary(s1);
      var (elems, s3) :- ListTail([first], s2);
      var (_, s4) :- Consume(s3, "]");
      Parsed(ListExpr(tok, elems), s4)
  }

  /**
   * The test of the loop over further list or vector items: it goes on at a comma
   * that is not followed by the closing bracket, which is then passed. A comma
   * followed by the bracket is skipped and ends the loop; reading the token after
   * a final comma throws.
   */
  function TailTurn(st: PState, close: string): (r: Parsed<bool>)
    requires Valid(st)
    ensures Stays(st, r)
    ensures r.Parsed? && r.value ==> r.st == st.(current := st.current + 1)
  {
    if st.current == |st.tokens| then Crashed
    else if !At(st, ",") then Parsed(false, st)
    else if st.current + 1 == |st.tokens| then Crashed
    else if st.tokens[st.current + 1].value == close then Parsed(false, Next(st))
    else Parsed(true, Next(st))
  }

  /** The loop over further list elements. */
  function ListTail(elems: seq<Expr>, st: PState): (r: Parsed<seq<Expr>>)
    requires Valid(st)
    ensures Stays(st, r)
    ensures r.Parsed? ==> elems <= r.value
    decreases Remaining(st), 14
  {
    var (more, s1) :- TailTurn(st, "]");
    if !more then Parsed(elems, s1)
    else
      var (e, s2) :- ParseUnary(s1);
      ListTail(elems + [e], s2)
  }

  /** A vector literal: members separated by commas, a trailing comma allowed. */
  function ParseVector(st: PState): (r: Parsed<Expr>)
    requires Valid(st)
    ensures Moves(st, r)
    ensures r.Parsed? ==> r.value.Vector?
    decreases Remaining(st), 14
  {
    var (tok, s1) :- Consume(st, "{");
    if s1.current == |s1.tokens| then Crashed
    else if At(s1, "}") then
      var (_, s2) := Take(s1, "}");
      Parsed(Vector(tok, []), s2)
    else
      var (first, s2) :- ParseMember(s1);
      var (members, s3) :- MemberTail([first], s2);
      var (_, s4) :- Consume(s3, "}");
      Parsed(Vector(tok, members), s4)
  }

  /** The loop over further vector members, which ends like the loop of a list. */
  function MemberTail(members: seq<Member>, st: PState): (r: Parsed<seq<Member>>)
    requires Valid(st)
    ensures Stays(st, r)
    ensures r.Parsed? ==> members <= r.value
    decreases Remaining(st), 14
  {
    var (more, s1) :- TailTurn(st, "}");
    if !more then Parsed(members, s1)
    else
      var (m, s2) :- ParseMember(s1);
      MemberTail(members + [m], s2)
  }

  /**
   * `parseMember`: a variable with an optional type, which is not looked up in any
   * scope, or any unary expression.
   */
  function ParseMember(st: PState): (r: Parsed<Member>)
    requires Valid(st)
    ensures Moves(st, r)
    ensures r.Parsed? ==> r.value.token == Cur(st)
    decreases Remaining(st), 17
  {
    if st.current == |st.tokens| then Crashed
    else
      var tok := Cur(st);
      if AtKind(st, IdentVar) then
        var s1 := Next(st);
        if s1.current == |s1.tokens| then Crashed
        else if At(s1, ":") then
          var (ty, s2) :- ParseType(Next(s1));
          Parsed(Member(tok, Var(VarNode(tok.value, ty, tok, false))), s2)
        else Parsed(Member(tok, Var(VarNode(tok.value, Type(DummyType, tok, []), tok, false))), s1)
      else
        var (e, s1) :- ParseUnary(st);
        Parsed(Member(tok, e), s1)
  }

  /**
   * The placeholder type of an unannotated reference: a token just after the
   * name, whose column adds the name's `length` in UTF-16 code units.
   */
  function UnannotatedType(tok: Token): Type {
    Type(DummyType, Token(IdentVar, Position(tok.pos.line, tok.pos.character + Utf16Length(tok.value)), "dummy"), [])
  }

  /** The optional `: type` after a variable: it declares the variable in the block scope. */
  function ParseAnnotation(tok: Token, st: PState): (r: Parsed<(Type, bool)>)
    requires Valid(st)
    ensures Stays(st, r)
    ensures r.Parsed? ==> FindVar(r.st, tok).Some? || (r.value.0 == UnannotatedType(tok) && !r.value.1 && r.st == st)
  {
    if st.current == |st.tokens| then Crashed
    else if At(st, ":") then
      var (_, s1) := Take(st, ":");
      var (ty, s2) :- ParseType(s1);
      PushVarDeclares(s2, tok, ty, true, false);
      var (v, s3) := PushVar(s2, tok, ty, true, false);
      Parsed((ty, v.isInput), s3)
    else Parsed((UnannotatedType(tok), false), st)
  }

  /**
   * A variable reference. An annotated reference takes `isInput` from the variable
   * `pushVar` returns; an unannotated one is never an input. Either way the type is
   * the one of the variable in scope, and a name in no scope is an error.
   */
  function ParseVarRef(st: PState): (r: Parsed<Expr>)
    requires st.current < |st.tokens|
    ensures Moves(st, r)
    ensures r.Parsed? ==> r.value == Dummy(Cur(st)) || (r.value.Var? && r.value.v.name == Cur(st).value && r.value.v.token == Cur(st))
  {
    var tok := Cur(st);
    var ((ty, isInput), s1) :- ParseAnnotation(tok, Next(st));
    match FindVar(s1, tok)
    case None => Parsed(Dummy(tok), Report(s1, "Variable " + JsonQuote(tok.value) + " is not defined.", ty.token.pos))
    case Some(fv) => Parsed(Var(VarNode(tok.value, fv.valueType, tok, isInput)), s1)
  }

  // ---------------------------------------------------------------------------
  // Statements.

  /** `for` bounds that are variables must be integer or real. */
  function CheckNumeric(e: Expr, st: PState): (st': PState)
    ensures Valid(st) ==> Follows(st, st') && st'.current == st.current
  {
    if e.Var? && e.v.valueType.kind != Integer && e.v.valueType.kind != Real then
      Report(st, "Expected integer or real, but got " + TypeKindName(e.v.valueType.kind) + ".", e.v.valueType.token.pos)
    else st
  }

  /** `for ( e , e , e )` after the `for` keyword. */
  function ParseForRange(tok: Token, st: PState): (r: Parsed<BuildIn>)
    requires Valid(st)
    ensures Moves(st, r)
  {
    var (_, s1) :- Consume(st, "(");
    var (from, s2) :- ParseExpr(s1);
    var (_, s3) :- Consume(CheckNumeric(from, s2), ",");
    var (upper, s4) :- ParseExpr(s3);
    var (_, s5) :- Consume(CheckNumeric(upper, s4), ",");
    var (inc, s6) :- ParseExpr(s5);
    var (_, s7) :- Consume(CheckNumeric(inc, s6), ")");
    Parsed(ForRange(tok, from, upper, inc), s7)
  }

  /** `select ( primary )` after the `select` keyword; a variable must be a list. */
  function ParseSelect(tok: Token, st: PState): (r: Parsed<BuildIn>)
    requires Valid(st)
    ensures Moves(st, r)
  {
    var (_, s1) :- Consume(st, "(");
    var (list, s2) :- ParsePrimary(s1);
    var s3 := if list.Var? && list.v.valueType.kind != ListType
      then Report(s2, "Expected list, but got " + TypeKindName(list.v.valueType.kind) + ".", list.v.valueType.token.pos)
      else s2;
    var (_, s4) :- Consume(s3, ")");
    Parsed(Select(tok, list), s4)
  }

  /** `parseBuildIn`: a `for` or `select` generator, or an expression. */
  function ParseBuildIn(st: PState): (r: Parsed<BuildIn>)
    requires Valid(st)
    ensures Moves(st, r)
  {
    if st.current == |st.tokens| then Crashed
    else if At(st, "for") then ParseForRange(Cur(st), Next(st))
    else if At(st, "select") then ParseSelect(Cur(st), Next(st))
    else
      var (e, s1) :- ParseExpr(st);
      Parsed(Calc(e), s1)
  }

  /** `parseAssign`: a primary, `=`, and a build-in. */
  function ParseAssign(st: PState): (r: Parsed<StmtExpr>)
    requires Valid(st)
    ensures Moves(st, r)
  {
    if st.current == |st.tokens| then Crashed
    else
      var (lhs, s1) :- ParsePrimary(st);
      var (_, s2) :- Consume(s1, "=");
      var (rhs, s3) :- ParseBuildIn(s2);
      Parsed(Assign(Cur(st), lhs, rhs), s3)
  }

  /** The first module name of `fnames` that the token matches, or "" when none does. */
  function MatchName(fnames: seq<string>, t: Token): string
    decreases |fnames|
  {
    if fnames == [] then ""
    else if Matches(t, fnames[0]) then fnames[0]
    else MatchName(fnames[1..], t)
  }

  /** MatchName finds a name the token matches, and "" when the token matches none. */
  lemma {:induction false} MatchNameSpec(fnames: seq<string>, t: Token)
    ensures MatchName(fnames, t) != "" ==> MatchName(fnames, t) in fnames && Matches(t, MatchName(fnames, t))
    ensures (forall k :: 0 <= k < |fnames| ==> !Matches(t, fnames[k])) ==> MatchName(fnames, t) == ""
    decreases |fnames|
  {
    if fnames != [] && !Matches(t, fnames[0]) {
      MatchNameSpec(fnames[1..], t);
      forall k | 0 <= k < |fnames[1..]| ensures fnames[1..][k] == fnames[k + 1] {
      }
    }
  }

  /** The module name of a `call`: an atom or reserved word naming this module or an atom parameter. */
  function CallTarget(st: PState): (r: (string, PState))
    requires st.current < |st.tokens|
    ensures Follows(st, r.1) && r.1.current == st.current
    ensures r.0 == "dummy" || (r.0 in st.fnames && r.1 == st)
  {
    var cur := Cur(st);
    var missing := Report(st, "Expected atom, but got " + JsonQuote(cur.value) + ".", cur.pos);
    if AtKind(st, AtomLit) || AtKind(st, Reserved) then
      var name := MatchName(st.fnames, cur);
      MatchNameSpec(st.fnames, cur);
      if name == "" then ("dummy", missing) else (name, st)
    else ("dummy", missing)
  }

  /** `call ( module , primary , primary )` after the `call` keyword. */
  function ParseCall(tok: Token, st: PState): (r: Parsed<StmtExpr>)
    requires Valid(st)
    ensures Moves(st, r)
  {
    var (_, s1) :- Consume(st, "(");
    if s1.current == |s1.tokens| then Crashed
    else
      var (name, s2) := CallTarget(s1);
      var (_, s3) :- Consume(Next(s2), ",");
      var (input, s4) :- ParsePrimary(s3);
      var (_, s5) :- Consume(s4, ",");
      var (output, s6) :- ParsePrimary(s5);
      var (_, s7) :- Consume(s6, ")");
      Parsed(CallStmt(tok, name, input, output), s7)
  }

  /** `( expr )` after `test` and `when`. */
  function ParseCondition(st: PState): (r: Parsed<Expr>)
    requires Valid(st)
    ensures Moves(st, r)
  {
    var (_, s1) :- Consume(st, "(");
    var (e, s2) :- ParseExpr(s1);
    var (_, s3) :- Consume(s2, ")");
    Parsed(e, s3)
  }

  /** `parseStmtExpr`. */
  function ParseStmtExpr(st: PState): (r: Parsed<StmtExpr>)
    requires Valid(st)
    ensures Moves(st, r)
  {
    if st.current == |st.tokens| then Crashed
    else
      var tok := Cur(st);
      if At(st, "test") then
        var (c, s1) :- ParseCondition(Next(st));
        Parsed(TestStmt(tok, c), s1)
      else if At(st, "when") then
        var (c, s1) :- ParseCondition(Next(st));
        Parsed(When(tok, c), s1)
      else if At(st, "call") then ParseCall(tok, Next(st))
      else ParseAssign(st)
  }

  /**
   * A missing `;` after a statement or block: the error is placed on the line above
   * when the current token is the end of input, which is then not consumed.
   */
  function MissingSemicolon(st: PState): (r: PState)
    requires st.current < |st.tokens|
    ensures Follows(st, r)
    ensures |r.errors| == |st.errors| + 1
    ensures r.current == if AtKind(st, Eof) then st.current else st.current + 1
  {
    var cur := Cur(st);
    var message := "Expected ;, but got " + JsonQuote(cur.value) + ".";
    if AtKind(st, Eof) then Report(st, message, Position(cur.pos.line - 1, cur.pos.character))
    else Next(Report(st, message, cur.pos))
  }

  /** `parseStmt`: a statement and its `;`, or a dummy statement at the token where `;` was missing. */
  function ParseStmt(st: PState): (r: Parsed<StmtNode>)
    requires Valid(st)
    ensures Moves(st, r)
    ensures r.Parsed? && r.value.Stmt? ==> r.value.token == Cur(st)
  {
    if st.current == |st.tokens| then Crashed
    else
      var (e, s1) :- ParseStmtExpr(st);
      if s1.current == |s1.tokens| then Crashed
      else if !At(s1, ";") then Parsed(DummyStmt(Cur(s1)), MissingSemicolon(s1))
      else Parsed(Stmt(Cur(st), e), Next(s1))
  }

  /** The `while (!isCurrent("end"))` loop of a block. */
  function Stmts(body: seq<StmtNode>, st: PState): (r: Parsed<seq<StmtNode>>)
    requires Valid(st)
    ensures Stays(st, r)
    ensures r.Parsed? ==> r.st.current < |r.st.tokens| && At(r.st, "end") && body <= r.value
    decreases Remaining(st)
  {
    if st.current == |st.tokens| then Crashed
    else if At(st, "end") then Parsed(body, st)
    else
      var (s, s1) :- ParseStmt(st);
      Stmts(body + [s], s1)
  }

  /** The statement of the first non-dummy statement node, if any. */
  function FirstStmt(body: seq<StmtNode>): Option<StmtExpr>
    decreases |body|
  {
    if body == [] then None
    else if body[0].Stmt? then Some(body[0].stmt)
    else FirstStmt(body[1..])
  }

  /**
   * FirstStmt finds a statement exactly when some node is not a dummy, and then
   * the one of the first such node.
   */
  lemma {:induction false} FirstStmtSpec(body: seq<StmtNode>)
    ensures FirstStmt(body).Some? <==> exists k :: 0 <= k < |body| && body[k].Stmt?
    ensures FirstStmt(body).Some? ==> exists k :: 0 <= k < |body| && body[k] == Stmt(body[k].token, FirstStmt(body).value) && forall j :: 0 <= j < k ==> body[j].DummyStmt?
    decreases |body|
  {
    if body == [] {
    } else if body[0].Stmt? {
      assert body[0] == Stmt(body[0].token, FirstStmt(body).value);
    } else {
      var r := FirstStmt(body[1..]);
      FirstStmtSpec(body[1..]);
      if r.Some? {
        var k :| 0 <= k < |body[1..]| && body[1..][k] == Stmt(body[1..][k].token, r.value) && forall j :: 0 <= j < k ==> body[1..][j].DummyStmt?;
        assert body[k + 1] == body[1..][k];
        forall j | 0 <= j < k + 1 ensures body[j].DummyStmt? {
          if j > 0 { assert body[j] == body[1..][j - 1]; }
        }
      }
      if exists k :: 0 <= k < |body| && body[k].Stmt? {
        var k :| 0 <= k < |body| && body[k].Stmt?;
        assert body[1..][k - 1] == body[k];
      }
    }
  }

  /**
   * The guard of a block: the condition of its first non-dummy statement when that
   * is a `when`. The source then drops `body[0]`, whichever statement that is.
   * With no non-dummy statement the source reads a property of `undefined`.
   */
  function SplitGuard(body: seq<StmtNode>): (r: Option<(seq<StmtNode>, Option<Expr>)>)
    ensures r.None? <==> FirstStmt(body).None?
    ensures r.Some? ==> (r.value.1.Some? <==> FirstStmt(body).value.When?)
    ensures r.Some? && r.value.1.Some? ==> r.value.1.value == FirstStmt(body).value.cond && r.value.0 == body[1..]
    ensures r.Some? && r.value.1.None? ==> r.value.0 == body
  {
    match FirstStmt(body)
    case None => None
    case Some(s0) => if s0.When? then Some((body[1..], Some(s0.cond))) else Some((body, None))
  }

  /** `parseBlock`. */
  function ParseBlock(st: PState): (r: Parsed<BlockNode>)
    requires Valid(st)
    ensures Moves(st, r)
    ensures r.Parsed? && r.value.Block? ==> r.st.blockScope == [] && r.value.token == Cur(st)
  {
    if st.current == |st.tokens| then Crashed
    else
      var (body, s1) :- Stmts([], Next(Expect(st, "method").(blockScope := [])));
      var (_, s2) :- Consume(Next(s1), "method");
      if s2.current == |s2.tokens| then Crashed
      else if !At(s2, ";") then Parsed(DummyBlock(Cur(s2)), MissingSemicolon(s2))
      else
        var s3 := Next(s2);
        match SplitGuard(body)
        case None => Crashed
        case Some((stmts, guard)) => Parsed(Block(Cur(st), stmts, s3.blockScope, guard), s3.(blockScope := []))
  }

  // ---------------------------------------------------------------------------
  // Parameters and modules.

  /** A vector parameter member: the first vector parameter marks its variable members as inputs. */
  function MarkInput(m: Member, isInput: bool): (r: Member)
    ensures r.token == m.token
    ensures r.value.Var? <==> m.value.Var?
    ensures r.value.Var? ==> r.value.v == m.value.v.(isInput := m.value.v.isInput || isInput)
    ensures !m.value.Var? || !isInput ==> r == m
  {
    if isInput && m.value.Var? then m.(value := Var(m.value.v.(isInput := true))) else m
  }

  /** The type a parameter member declares: its variable's type, or a dummy type. */
  function MemberType(m: Member): Type {
    if m.value.Var? then m.value.v.valueType else Type(DummyType, m.token, [])
  }

  /**
   * The loop of `parseParam` over the members of a vector parameter: each member is
   * marked, and declared in the module scope under its token's text.
   */
  function DeclareMembers(ms: seq<Member>, st: PState): (r: (seq<Member>, PState))
    ensures Valid(st) ==> Follows(st, r.1) && r.1.current == st.current
    ensures r.1.paramMemberIndex == st.paramMemberIndex
  {
    if ms == [] then ([], st)
    else
      var (front, s1) := DeclareMembers(ms[..|ms| - 1], st);
      var m := ms[|ms| - 1];
      var isInput := st.paramMemberIndex == 0;
      (front + [MarkInput(m, isInput)], PushVar(s1, m.token, MemberType(m), false, isInput).1)
  }

  /** The members come back in order, each marked exactly when the counter is 0. */
  lemma {:induction false} DeclareMembersMarks(ms: seq<Member>, st: PState)
    ensures |DeclareMembers(ms, st).0| == |ms|
    ensures forall k :: 0 <= k < |ms| ==> DeclareMembers(ms, st).0[k] == MarkInput(ms[k], st.paramMemberIndex == 0)
    decreases |ms|
  {
    if ms != [] {
      DeclareMembersMarks(ms[..|ms| - 1], st);
    }
  }

  /** A vector parameter declares the members of the vector literal; anything else is an error. */
  function DeclareVector(tok: Token, v: Expr, st: PState): (r: (ParamNode, PState))
    ensures Valid(st) ==> Follows(st, r.1) && r.1.current == st.current
    ensures r.1.paramMemberIndex == st.paramMemberIndex
    ensures r.0.VectorParam? <==> v.Vector?
  {
    if !v.Vector? then
      (DummyParam(tok), Report(st, "Expected vector parameter, but got " + JsonQuote(tok.value) + ".", tok.pos))
    else
      var (members, s1) := DeclareMembers(v.members, st);
      (VectorParam(tok, members), s1)
  }

  /**
   * The `{` branch of `parseParam`: the vector parameter counter goes up, and the
   * members of the vector literal are declared.
   */
  function ParseVectorParam(tok: Token, st: PState): (r: Parsed<ParamNode>)
    requires Valid(st)
    ensures StaysCounting(st, r)
    ensures r.Parsed? ==> r.st.paramMemberIndex == st.paramMemberIndex + 1 && r.st.current > st.current
  {
    VectorParamAfter(tok, ParsePrimary(st.(paramMemberIndex := st.paramMemberIndex + 1)))
  }

  /** The rest of ParseVectorParam once its vector literal `pp` is read: the members are declared. */
  function VectorParamAfter(tok: Token, pp: Parsed<Expr>): (r: Parsed<ParamNode>)
    ensures r.Crashed? <==> pp.Crashed?
  {
    match pp
    case Crashed => Crashed
    case Parsed(v, s1) =>
      var (p, s2) := DeclareVector(tok, v, s1);
      Parsed(p, s2)
  }

  /** `parseParam`: an atom (a module name), a vector of members, or an error. */
  function ParseParam(st: PState): (r: Parsed<ParamNode>)
    requires Valid(st)
    ensures StaysCounting(st, r)
    ensures r.Parsed? && !r.value.DummyParam? ==> r.st.current > st.current
  {
    if st.current == |st.tokens| then Crashed
    else
      var tok := Cur(st);
      if AtKind(st, AtomLit) then
        Parsed(AtomParam(tok), Next(st).(fnames := st.fnames + [tok.value]))
      else if At(st, "{") then ParseVectorParam(tok, st)
      else Parsed(DummyParam(tok), Report(st, "Expected parameter, but got " + JsonQuote(tok.value) + ".", tok.pos))
  }

  /** The `while (isCurrent(","))` loop of `parseParams`. */
  function ParamList(params: seq<ParamNode>, st: PState): (r: Parsed<seq<ParamNode>>)
    requires Valid(st)
    ensures StaysCounting(st, r)
    ensures r.Parsed? ==> r.st.current < |r.st.tokens| && params <= r.value
    decreases Remaining(st)
  {
    if st.current == |st.tokens| then Crashed
    else if At(st, ",") then
      var (p, s1) :- ParseParam(Next(st));
      ParamList(params + [p], s1)
    else Parsed(params, st)
  }

  /** `parseParams`: the token after the parameters is skipped whatever it is. */
  function ParseParams(st: PState): (r: Parsed<seq<ParamNode>>)
    requires Valid(st)
    ensures MovesCounting(st, r)
  {
    var (_, s1) :- Consume(st, "(");
    if s1.current == |s1.tokens| then Crashed
    else if At(s1, ")") then Parsed([], Next(s1))
    else
      var (p, s2) :- ParseParam(s1);
      var (ps, s3) :- ParamList([p], s2);
      Parsed(ps, Next(s3))
  }

  /** The `while (!isCurrent("end"))` loop of a module. */
  function Blocks(blocks: seq<BlockNode>, st: PState): (r: Parsed<seq<BlockNode>>)
    requires Valid(st)
    ensures Stays(st, r)
    ensures r.Parsed? ==> r.st.current < |r.st.tokens| && At(r.st, "end") && blocks <= r.value
    decreases Remaining(st)
  {
    if st.current == |st.tokens| then Crashed
    else if At(st, "end") then Parsed(blocks, st)
    else
      var (b, s1) :- ParseBlock(st);
      Blocks(blocks + [b], s1)
  }

  /** The fields at the start of a module: empty local lists and scopes. */
  function ModuleStart(st: PState): (st': PState)
    ensures st' == st.(fnames := [], localVars := [], moduleScope := [], blockScope := [])
  {
    st.(fnames := [], localVars := [], moduleScope := [], blockScope := [])
  }

  /** The module name: an ident-func or reserved word, recorded as the first local module name. */
  function ModuleName(st: PState): (r: (string, PState))
    requires st.current < |st.tokens|
    ensures Follows(st, r.1) && r.1.current == st.current
  {
    var tok := Cur(st);
    if AtKind(st, IdentFunc) || AtKind(st, Reserved) then (tok.value, st.(fnames := st.fnames + [tok.value]))
    else ("dummy", Report(st, "Expected module name, but got " + JsonQuote(tok.value) + ".", tok.pos))
  }

  /** `end`, an optional `module`, and `;`. */
  function ModuleEnd(st: PState): (r: Parsed<Token>)
    requires st.current < |st.tokens|
    ensures Moves(st, r)
  {
    var s1 := Next(st);
    if s1.current == |s1.tokens| then Crashed
    else Consume(if At(s1, "module") then Next(s1) else s1, ";")
  }

  /** `parseModule`. */
  function ParseModule(st: PState): (r: Parsed<ModuleNode>)
    requires Valid(st)
    ensures MovesCounting(st, r)
    ensures r.Parsed? ==> r.value.Module? && r.value.token == Cur(st) && r.value.localList == r.st.localVars
  {
    var s0 := ModuleStart(st);
    if s0.current == |s0.tokens| then Crashed
    else
      var (name, s1) := ModuleName(s0);
      var (params, s2) :- ParseParams(Next(s1));
      var (blocks, s3) :- Blocks([], s2);
      var (_, s4) :- ModuleEnd(s3);
      Parsed(Module(Cur(st), name, params, blocks, s4.localVars), s4)
  }

  /** The loop of `exec`: modules are appended to `program` until the end-of-input token. */
  function Modules(st: PState): (r: Parsed<seq<ModuleNode>>)
    requires Valid(st)
    ensures StaysCounting(st, r)
    ensures r.Parsed? ==> r.value == r.st.program
    ensures r.Parsed? ==> r.st.current < |r.st.tokens| && Cur(r.st).kind == Eof
    decreases Remaining(st)
  {
    if st.current == |st.tokens| then Crashed
    else if AtKind(st, Eof) then Parsed(st.program, st)
    else
      var (m, s1) :- ParseModule(st);
      Modules(s1.(program := s1.program + [m]))
  }

  /** `exec`: the modules up to the end-of-input token, and the errors reported. */
  function Exec(st: PState): (r: Parsed<ParseResult>)
    requires Valid(st)
    ensures r.Parsed? ==> r.value.errors == r.st.errors && r.value.program == Program(r.st.program)
  {
    var (modules, s) :- Modules(st);
    Parsed(ParseResult(s.errors, Program(modules)), s)
  }

  /** `parser(tokens)`: `exec` of a new parser. */
  function Parse(tokens: seq<Token>): Parsed<ParseResult> {
    Exec(Initial(tokens))
  }
}
