/**
 * Properties of the expression, variable and block grammar of the parser: the
 * precedence ladder, the associativity of each level, how references are typed
 * and declared, how vector parameters are marked, and how a block guard is taken.
 */
module GrammarFacts {
  import opened Base
  import opened Syntax
  import opened Grammar

  function Tok(kind: TokenKind, col: int, value: string): Token {
    Token(kind, Position(1, col), value)
  }

  /** The symbols of the binary levels. */
  const BinarySymbols: set<string> := {"or", "and", "=", "\\=", "<", "=<", ">", ">=", "+", "-", "*", "/", "mod"}

  /** A number followed by a token other than `^` is a whole power. */
  lemma NumberIsPower(st: PState)
    requires st.current + 1 < |st.tokens| && Cur(st).kind == Number
    requires Cur(st).value !in {"-", "+", "sqrt", "exp", "(", "[", "{"}
    requires st.tokens[st.current + 1].value != "^"
    ensures ParsePow(st) == Parsed(Num(Cur(st)), Next(st))
  {
    assert ParsePrimary(st) == Parsed(Num(Cur(st)), Next(st));
    assert ParseUnary(st) == Parsed(Num(Cur(st)), Next(st));
  }

  /** The loop of a level ends at a token that is none of its operators. */
  lemma NoRule(lv: Level, node: Expr, st: PState)
    requires st.current < |st.tokens|
    requires forall k :: 0 <= k < |Rules(lv)| ==> Cur(st).value != Rules(lv)[k].symbol
    ensures ChainLoop(lv, node, st) == Parsed(node, st)
  {
    FirstRuleSpec(Rules(lv), Cur(st));
  }

  /** The loop of any level ends at a token that is no binary operator. */
  lemma NoOperator(lv: Level, node: Expr, st: PState)
    requires st.current < |st.tokens| && Cur(st).value !in BinarySymbols
    ensures ChainLoop(lv, node, st) == Parsed(node, st)
  {
    assert forall k :: 0 <= k < |Rules(lv)| ==> Rules(lv)[k].symbol in BinarySymbols;
    NoRule(lv, node, st);
  }

  /** One iteration of a level's loop: an operator of the level, then its operand. */
  lemma LoopStep(lv: Level, node: Expr, st: PState, rule: OpRule, operand: Expr, s1: PState)
    requires Valid(st) && st.current < |st.tokens|
    requires FirstRule(Rules(lv), Cur(st)) == Some(rule)
    requires ParseOperand(lv, Next(st)) == Parsed(operand, s1)
    ensures ChainLoop(lv, node, st) == ChainLoop(lv, Combine(rule, Cur(st), node, operand), s1)
  {
  }

  /** The level next looser than `lv`, or None for the loosest. */
  function Looser(lv: Level): Option<Level> {
    match lv
    case MulLevel => Some(AddLevel)
    case AddLevel => Some(RelationalLevel)
    case RelationalLevel => Some(EqualityLevel)
    case EqualityLevel => Some(AndLevel)
    case AndLevel => Some(OrLevel)
    case OrLevel => None
  }

  /**
   * A chain of level `lv` followed by a token that is no binary operator is the
   * whole expression, unless the expression starts with `not`.
   */
  lemma {:induction false} Lift(lv: Level, st: PState)
    requires Valid(st) && st.current < |st.tokens| && Cur(st).value != "not"
    requires ParseChain(lv, st).Parsed?
    requires ParseChain(lv, st).st.current < |st.tokens| && Cur(ParseChain(lv, st).st).value !in BinarySymbols
    ensures ParseExpr(st) == ParseChain(lv, st)
    decreases 30 - ChainRank(lv)
  {
    var r := ParseChain(lv, st);
    match Looser(lv)
    case None =>
    case Some(up) =>
      NoOperator(up, r.value, r.st);
      if lv == EqualityLevel {
        assert ParseNotTerm(st) == r;
      }
      assert ParseOperand(up, st) == r;
      assert ParseChain(up, st) == r;
      Lift(up, st);
  }

  /** A chain of any level that stops at `;` is the whole expression. */
  lemma EndsAtSemicolon(lv: Level, st: PState)
    requires Valid(st) && st.current < |st.tokens| && Cur(st).value != "not"
    requires ParseChain(lv, st).Parsed?
    requires ParseChain(lv, st).st.current < |st.tokens| && Cur(ParseChain(lv, st).st).value == ";"
    ensures ParseExpr(st) == ParseChain(lv, st)
  {
    Lift(lv, st);
  }

  /** A `-` in the additive loop subtracts the next product from the node so far. */
  lemma MinusStep(node: Expr, st: PState, operand: Expr, s1: PState)
    requires Valid(st) && st.current < |st.tokens| && Cur(st).value == "-"
    requires ParseChain(MulLevel, Next(st)) == Parsed(operand, s1)
    ensures ChainLoop(AddLevel, node, st) == ChainLoop(AddLevel, Binary(Cur(st), Sub, node, operand), s1)
  {
    var rules := Rules(AddLevel);
    assert FirstRule(rules, Cur(st)) == FirstRule(rules[1..], Cur(st)) == Some(rules[1]);
    LoopStep(AddLevel, node, st, rules[1], operand, s1);
  }

  /** A `>` or `>=` in the relational loop puts the next sum on the left of a `<` or `=<`. */
  lemma GreaterStep(node: Expr, st: PState, operand: Expr, s1: PState)
    requires Valid(st) && st.current < |st.tokens| && Cur(st).value in {">", ">="}
    requires ParseChain(AddLevel, Next(st)) == Parsed(operand, s1)
    ensures ChainLoop(RelationalLevel, node, st)
         == ChainLoop(RelationalLevel, Binary(Cur(st), if Cur(st).value == ">" then Lt else Le, operand, node), s1)
  {
    var rules := Rules(RelationalLevel);
    if Cur(st).value == ">" {
      assert FirstRule(rules, Cur(st)) == FirstRule(rules[2..], Cur(st)) == Some(rules[2]);
      LoopStep(RelationalLevel, node, st, rules[2], operand, s1);
    } else {
      assert FirstRule(rules, Cur(st)) == FirstRule(rules[3..], Cur(st)) == Some(rules[3]);
      LoopStep(RelationalLevel, node, st, rules[3], operand, s1);
    }
  }

  /** A `*` in the multiplicative loop multiplies the node so far by the next power. */
  lemma TimesStep(node: Expr, st: PState, operand: Expr, s1: PState)
    requires Valid(st) && st.current < |st.tokens| && Cur(st).value == "*"
    requires ParsePow(Next(st)) == Parsed(operand, s1)
    ensures ChainLoop(MulLevel, node, st) == ChainLoop(MulLevel, Binary(Cur(st), Mul, node, operand), s1)
  {
    var rules := Rules(MulLevel);
    assert FirstRule(rules, Cur(st)) == Some(rules[0]);
    LoopStep(MulLevel, node, st, rules[0], operand, s1);
  }

  /** A unary followed by `^` is the left operand of a power whose right operand is the rest, read as a power again. */
  lemma PowStep(st: PState, u: Expr, s1: PState, e: Expr, s2: PState)
    requires Valid(st) && ParseUnary(st) == Parsed(u, s1)
    requires s1.current < |s1.tokens| && At(s1, "^")
    requires ParsePow(Next(s1)) == Parsed(e, s2)
    ensures ParsePow(st) == Parsed(Binary(Cur(s1), Pow, u, e), s2)
  {
    assert !ParseUnary(st).IsFailure() && ParseUnary(st).Extract() == (u, s1);
    var rhs := ParsePow(Next(s1));
    assert !rhs.IsFailure() && rhs.Extract() == (e, s2);
  }

  /** A unary followed by anything but `^` is the whole power. */
  lemma PowEnd(st: PState, u: Expr, s1: PState)
    requires Valid(st) && ParseUnary(st) == Parsed(u, s1)
    requires s1.current < |s1.tokens| && !At(s1, "^")
    ensures ParsePow(st) == Parsed(u, s1)
  {
    assert !ParseUnary(st).IsFailure() && ParseUnary(st).Extract() == (u, s1);
  }

  /** A `-` wraps the one primary after it in a negation, and crashes where that primary does. */
  lemma NegStep(st: PState)
    requires Valid(st) && st.current < |st.tokens| && At(st, "-")
    ensures ParsePrimary(Next(st)).Crashed? ==> ParseUnary(st).Crashed?
    ensures ParsePrimary(Next(st)).Parsed? ==>
      ParseUnary(st) == Parsed(Unary(Cur(st), Neg, ParsePrimary(Next(st)).value), ParsePrimary(Next(st)).st)
  {
    assert Expect(st, "-") == st;
    var p := ParsePrimary(Next(st));
    if p.Crashed? {
      assert p.IsFailure();
    } else {
      assert !p.IsFailure() && p.Extract() == (p.value, p.st);
    }
  }

  /** A `+` leaves no node: the unary is the primary after it. */
  lemma PlusStep(st: PState)
    requires Valid(st) && st.current < |st.tokens| && At(st, "+")
    ensures ParseUnary(st) == ParsePrimary(Next(st))
  {
    assert !At(st, "-");
  }

  /** A chain over one power, followed by a token that is no binary operator. */
  lemma PowerIsChain(lv: Level, st: PState)
    requires Valid(st) && st.current < |st.tokens| && Cur(st).value != "not"
    requires ParsePow(st).Parsed?
    requires ParsePow(st).st.current < |st.tokens| && Cur(ParsePow(st).st).value !in BinarySymbols
    ensures ParseChain(lv, st) == ParsePow(st)
    decreases ChainRank(lv)
  {
    var r := ParsePow(st);
    NoOperator(lv, r.value, r.st);
    match lv
    case MulLevel =>
      assert ParseOperand(lv, st) == r;
    case AddLevel =>
      PowerIsChain(MulLevel, st);
      assert ParseOperand(lv, st) == r;
    case RelationalLevel =>
      PowerIsChain(AddLevel, st);
      assert ParseOperand(lv, st) == r;
    case EqualityLevel =>
      PowerIsChain(RelationalLevel, st);
      assert ParseOperand(lv, st) == r;
    case AndLevel =>
      PowerIsChain(EqualityLevel, st);
      assert ParseNotTerm(st) == r;
      assert ParseOperand(lv, st) == r;
    case OrLevel =>
      PowerIsChain(AndLevel, st);
      assert ParseOperand(lv, st) == r;
  }

  /** `1 - 2 - 3` is `(1 - 2) - 3`. */
  lemma SubtractionIsLeftAssociative()
    ensures var ts := [Tok(Number, 0, "1"), Tok(Reserved, 2, "-"), Tok(Number, 4, "2"), Tok(Reserved, 6, "-"), Tok(Number, 8, "3"), Tok(Reserved, 9, ";")];
      ParseExpr(Initial(ts)) == Parsed(Binary(ts[3], Sub, Binary(ts[1], Sub, Num(ts[0]), Num(ts[2])), Num(ts[4])), Initial(ts).(current := 5))
  {
    var ts := [Tok(Number, 0, "1"), Tok(Reserved, 2, "-"), Tok(Number, 4, "2"), Tok(Reserved, 6, "-"), Tok(Number, 8, "3"), Tok(Reserved, 9, ";")];
    var s0 := Initial(ts);
    var s1, s3, s5 := s0.(current := 1), s0.(current := 3), s0.(current := 5);
    var n1, n2, n3 := Num(ts[0]), Num(ts[2]), Num(ts[4]);
    NumberIsPower(s0);
    NoRule(MulLevel, n1, s1);
    assert ParseChain(MulLevel, s0) == Parsed(n1, s1);
    NumberIsPower(s0.(current := 2));
    NoRule(MulLevel, n2, s3);
    assert ParseChain(MulLevel, s0.(current := 2)) == Parsed(n2, s3);
    NumberIsPower(s0.(current := 4));
    NoRule(MulLevel, n3, s5);
    assert ParseChain(MulLevel, s0.(current := 4)) == Parsed(n3, s5);
    var e12 := Binary(ts[1], Sub, n1, n2);
    var e := Binary(ts[3], Sub, e12, n3);
    NoRule(AddLevel, e, s5);
    MinusStep(e12, s3, n3, s5);
    MinusStep(n1, s1, n2, s3);
    assert ChainLoop(AddLevel, n1, s1) == Parsed(e, s5);
    assert ParseChain(AddLevel, s0) == Parsed(e, s5);
    EndsAtSemicolon(AddLevel, s0);
  }

  /** `1 > 2` is `2 < 1`, and `1 >= 2` is `2 =< 1`. */
  lemma GreaterSwapsOperands(op: string)
    requires op in {">", ">="}
    ensures var ts := [Tok(Number, 0, "1"), Tok(Reserved, 2, op), Tok(Number, 4, "2"), Tok(Reserved, 5, ";")];
      ParseExpr(Initial(ts)) == Parsed(Binary(ts[1], if op == ">" then Lt else Le, Num(ts[2]), Num(ts[0])), Initial(ts).(current := 3))
  {
    var ts := [Tok(Number, 0, "1"), Tok(Reserved, 2, op), Tok(Number, 4, "2"), Tok(Reserved, 5, ";")];
    var s0 := Initial(ts);
    var s1, s3 := s0.(current := 1), s0.(current := 3);
    var n1, n2 := Num(ts[0]), Num(ts[2]);
    NumberIsPower(s0);
    NoRule(MulLevel, n1, s1);
    assert ParseChain(MulLevel, s0) == Parsed(n1, s1);
    NoRule(AddLevel, n1, s1);
    assert ParseChain(AddLevel, s0) == Parsed(n1, s1);
    NumberIsPower(s0.(current := 2));
    PowerIsChain(AddLevel, s0.(current := 2));
    var e := Binary(ts[1], if op == ">" then Lt else Le, n2, n1);
    NoRule(RelationalLevel, e, s3);
    GreaterStep(n1, s1, n2, s3);
    assert ParseChain(RelationalLevel, s0) == Parsed(e, s3);
    EndsAtSemicolon(RelationalLevel, s0);
  }

  /** `2 ^ 3 ^ 4` is `2 ^ (3 ^ 4)`. */
  lemma PowerIsRightAssociative()
    ensures var ts := [Tok(Number, 0, "2"), Tok(Reserved, 2, "^"), Tok(Number, 4, "3"), Tok(Reserved, 6, "^"), Tok(Number, 8, "4"), Tok(Reserved, 9, ";")];
      ParseExpr(Initial(ts)) == Parsed(Binary(ts[1], Pow, Num(ts[0]), Binary(ts[3], Pow, Num(ts[2]), Num(ts[4]))), Initial(ts).(current := 5))
  {
    var ts := [Tok(Number, 0, "2"), Tok(Reserved, 2, "^"), Tok(Number, 4, "3"), Tok(Reserved, 6, "^"), Tok(Number, 8, "4"), Tok(Reserved, 9, ";")];
    var s0 := Initial(ts);
    NumberIsPower(s0.(current := 4));
    assert ParseUnary(s0.(current := 2)) == Parsed(Num(ts[2]), s0.(current := 3));
    assert ParsePow(s0.(current := 2)) == Parsed(Binary(ts[3], Pow, Num(ts[2]), Num(ts[4])), s0.(current := 5));
    assert ParseUnary(s0) == Parsed(Num(ts[0]), s0.(current := 1));
    assert ParsePow(s0) == Parsed(Binary(ts[1], Pow, Num(ts[0]), Binary(ts[3], Pow, Num(ts[2]), Num(ts[4]))), s0.(current := 5));
    PowerIsChain(OrLevel, s0);
  }

  /** `- 1 ^ 2` is `(- 1) ^ 2`: the minus takes one primary. */
  lemma MinusTakesOnePrimary()
    ensures var ts := [Tok(Reserved, 0, "-"), Tok(Number, 1, "1"), Tok(Reserved, 3, "^"), Tok(Number, 5, "2"), Tok(Reserved, 6, ";")];
      ParseExpr(Initial(ts)) == Parsed(Binary(ts[2], Pow, Unary(ts[0], Neg, Num(ts[1])), Num(ts[3])), Initial(ts).(current := 4))
  {
    var ts := [Tok(Reserved, 0, "-"), Tok(Number, 1, "1"), Tok(Reserved, 3, "^"), Tok(Number, 5, "2"), Tok(Reserved, 6, ";")];
    var s0 := Initial(ts);
    NumberIsPower(s0.(current := 3));
    assert ParsePrimary(s0.(current := 1)) == Parsed(Num(ts[1]), s0.(current := 2));
    assert ParseUnary(s0) == Parsed(Unary(ts[0], Neg, Num(ts[1])), s0.(current := 2));
    assert ParsePow(s0) == Parsed(Binary(ts[2], Pow, Unary(ts[0], Neg, Num(ts[1])), Num(ts[3])), s0.(current := 4));
    PowerIsChain(OrLevel, s0);
  }

  /** `+ 1` is `1`: a unary plus leaves no node. */
  lemma PlusIsDropped()
    ensures var ts := [Tok(Reserved, 0, "+"), Tok(Number, 1, "1"), Tok(Reserved, 2, ";")];
      ParseExpr(Initial(ts)) == Parsed(Num(ts[1]), Initial(ts).(current := 2))
  {
    var ts := [Tok(Reserved, 0, "+"), Tok(Number, 1, "1"), Tok(Reserved, 2, ";")];
    var s0 := Initial(ts);
    assert ParsePrimary(s0.(current := 1)) == Parsed(Num(ts[1]), s0.(current := 2));
    assert ParseUnary(s0) == Parsed(Num(ts[1]), s0.(current := 2));
    assert ParsePow(s0) == Parsed(Num(ts[1]), s0.(current := 2));
    PowerIsChain(OrLevel, s0);
  }

  /** `2 * 3 ^ 4` is `2 * (3 ^ 4)`. */
  lemma PowerBindsTighterThanProduct()
    ensures var ts := [Tok(Number, 0, "2"), Tok(Reserved, 2, "*"), Tok(Number, 4, "3"), Tok(Reserved, 6, "^"), Tok(Number, 8, "4"), Tok(Reserved, 9, ";")];
      ParseExpr(Initial(ts)) == Parsed(Binary(ts[1], Mul, Num(ts[0]), Binary(ts[3], Pow, Num(ts[2]), Num(ts[4]))), Initial(ts).(current := 5))
  {
    var ts := [Tok(Number, 0, "2"), Tok(Reserved, 2, "*"), Tok(Number, 4, "3"), Tok(Reserved, 6, "^"), Tok(Number, 8, "4"), Tok(Reserved, 9, ";")];
    var s0 := Initial(ts);
    var p := Binary(ts[3], Pow, Num(ts[2]), Num(ts[4]));
    NumberIsPower(s0);
    NumberIsPower(s0.(current := 4));
    assert ParseUnary(s0.(current := 2)) == Parsed(Num(ts[2]), s0.(current := 3));
    assert ParsePow(s0.(current := 2)) == Parsed(p, s0.(current := 5));
    var e := Binary(ts[1], Mul, Num(ts[0]), p);
    NoRule(MulLevel, e, s0.(current := 5));
    TimesStep(Num(ts[0]), s0.(current := 1), p, s0.(current := 5));
    assert ParseChain(MulLevel, s0) == Parsed(e, s0.(current := 5));
    EndsAtSemicolon(MulLevel, s0);
  }

  // ---------------------------------------------------------------------------
  // Variables and parameters.

  /**
   * A reference without a type annotation is never an input: it takes the type of
   * the variable in scope, and a name in no scope is reported and becomes a dummy.
   */
  lemma BareReference(st: PState)
    requires st.current + 1 < |st.tokens| && !At(Next(st), ":")
    ensures FindVar(st, Cur(st)).Some? ==>
      ParseVarRef(st) == Parsed(Var(VarNode(Cur(st).value, FindVar(st, Cur(st)).value.valueType, Cur(st), false)), Next(st))
    ensures FindVar(st, Cur(st)).None? ==>
      && ParseVarRef(st).Parsed?
      && ParseVarRef(st).value == Dummy(Cur(st))
      && ParseVarRef(st).st == Next(st).(errors := st.errors + [CompileError("Variable " + JsonQuote(Cur(st).value) + " is not defined.",
                                                                 Position(Cur(st).pos.line, Cur(st).pos.character + Utf16Length(Cur(st).value)))])
  {
    assert ParseAnnotation(Cur(st), Next(st)) == Parsed((UnannotatedType(Cur(st)), false), Next(st));
  }

  /**
   * The not-defined error sits just after the name in UTF-16 columns: a name
   * with a character beyond U+FFFF puts it one column further per such character.
   */
  lemma UndefinedColumnCountsUtf16(line: int, c: int)
    ensures UnannotatedType(Token(IdentVar, Position(line, c), "X\U{20000}")).token.pos == Position(line, c + 3)
    ensures UnannotatedType(Token(IdentVar, Position(line, c), "XY")).token.pos == Position(line, c + 2)
  {
    assert "X\U{20000}"[..1] == "X";
    assert "XY"[..1] == "X";
  }

  /** An annotated reference declares its name: it is never a dummy, and the name is in scope after it. */
  lemma AnnotatedIsDefined(st: PState)
    requires st.current + 1 < |st.tokens| && At(Next(st), ":")
    requires ParseVarRef(st).Parsed?
    ensures ParseVarRef(st).value.Var?
    ensures FindVar(ParseVarRef(st).st, Cur(st)).Some?
    ensures ParseVarRef(st).value.v.valueType == FindVar(ParseVarRef(st).st, Cur(st)).value.valueType
  {
    var a := ParseAnnotation(Cur(st), Next(st));
    assert a.Parsed?;
    assert FindVar(a.st, Cur(st)).Some?;
  }

  /**
   * The members of a vector parameter are marked as inputs exactly when the
   * counter was -1 before it, that is for the first vector parameter a parser
   * reads: the counter starts at -1 (Initial), each vector parameter adds one, and
   * no parse lowers it, not even the start of a module.
   */
  lemma VectorParamMarks(tok: Token, st: PState)
    requires Valid(st)
    requires ParseVectorParam(tok, st).Parsed? && ParseVectorParam(tok, st).value.VectorParam?
    ensures var v := ParsePrimary(st.(paramMemberIndex := st.paramMemberIndex + 1)).value;
      var ms := ParseVectorParam(tok, st).value.members;
      && v.Vector?
      && |ms| == |v.members|
      && forall k :: 0 <= k < |ms| ==> ms[k] == MarkInput(v.members[k], st.paramMemberIndex == -1)
  {
    var p := ParsePrimary(st.(paramMemberIndex := st.paramMemberIndex + 1));
    DeclareMembersMarks(p.value.members, p.st);
  }

  /** Once a vector parameter has been read, later vector parameters keep their members unmarked. */
  lemma LaterVectorParamsUnmarked(tok: Token, st: PState)
    requires Valid(st) && st.paramMemberIndex >= 0
    requires ParseVectorParam(tok, st).Parsed? && ParseVectorParam(tok, st).value.VectorParam?
    ensures ParseVectorParam(tok, st).value.members == ParsePrimary(st.(paramMemberIndex := st.paramMemberIndex + 1)).value.members
  {
    VectorParamMarks(tok, st);
  }

  // ---------------------------------------------------------------------------
  // Blocks.

  /**
   * The guard is removed by dropping the first statement node, which need not be
   * the `when`: after a dummy statement the dummy goes and the `when` stays in the
   * body while also becoming the guard.
   */
  lemma GuardShiftDropsFirstNode(t0: Token, t1: Token, cond: Expr, rest: seq<StmtNode>)
    ensures SplitGuard([DummyStmt(t0), Stmt(t1, When(t1, cond))] + rest) == Some(([Stmt(t1, When(t1, cond))] + rest, Some(cond)))
  {
    var body := [DummyStmt(t0), Stmt(t1, When(t1, cond))] + rest;
    assert body[1..] == [Stmt(t1, When(t1, cond))] + rest;
    assert FirstStmt(body) == FirstStmt(body[1..]);
  }

  /** A block with no statement throws: the guard lookup reads a property of `undefined`. */
  lemma EmptyBlockThrows()
    ensures var ts := [Tok(Reserved, 0, "method"), Tok(Reserved, 1, "end"), Tok(Reserved, 2, "method"), Tok(Reserved, 3, ";"), Tok(Eof, 4, "")];
      ParseBlock(Initial(ts)).Crashed?
  {
    var ts := [Tok(Reserved, 0, "method"), Tok(Reserved, 1, "end"), Tok(Reserved, 2, "method"), Tok(Reserved, 3, ";"), Tok(Eof, 4, "")];
    var s0 := Initial(ts);
    assert Stmts([], s0.(current := 1)) == Parsed([], s0.(current := 1));
  }
}
