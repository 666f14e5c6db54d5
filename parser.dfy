/**
 * The `Parser` class of src/lib/compiler/parser.ts: an object whose methods move a
 * cursor over the token list and update its scopes, its local-variable list, its
 * vector parameter counter and its error list in place.
 *
 * Each method is proved to agree with the function of the same name in Grammar:
 * it returns `None` exactly where that function throws, and otherwise returns the
 * function's node and leaves the fields equal to the function's state.
 */
module Parser {
  import opened Base
  import opened Syntax
  import Grammar

  class Parser {
    var tokenList: seq<Token>
    var current: nat
    /** localVarList.fname: the module's name and its atom parameters. */
    var fnames: seq<string>
    /** localVarList.varList. */
    var localVars: seq<VarNode>
    /** scope.module. */
    var moduleScope: seq<VarNode>
    /** scope.block. */
    var blockScope: seq<VarNode>
    var paramMemberIndex: int
    var errorList: seq<CompileError>
    var program: seq<ModuleNode>

    /** The fields, as the value the Grammar functions work on. */
    function State(): Grammar.PState
      reads this
    {
      Grammar.PState(tokenList, current, fnames, localVars, moduleScope, blockScope, paramMemberIndex, errorList, program)
    }

    predicate Valid()
      reads this
    {
      current <= |tokenList|
    }

    constructor ()
      ensures State() == Grammar.Initial([])
    {
      tokenList := [];
      current := 0;
      fnames := [];
      localVars := [];
      moduleScope := [];
      blockScope := [];
      paramMemberIndex := -1;
      errorList := [];
      program := [];
    }

    // -------------------------------------------------------------------------
    // Tokens.

    /** `peek`; `None` is the `undefined` past the last token. */
    method Peek() returns (r: Option<Token>)
      requires Valid()
      ensures r.Some? <==> current < |tokenList|
      ensures r.Some? ==> r.value == tokenList[current]
    {
      if current == |tokenList| {
        return None;
      }
      return Some(tokenList[current]);
    }

    method Next()
      requires current < |tokenList|
      modifies this
      ensures State() == Grammar.Next(old(State()))
    {
      current := current + 1;
    }

    /**
     * `isCurrent` of a literal text, which names no token type; it throws past the
     * last token.
     */
    method IsCurrent(c: string) returns (r: Option<bool>)
      requires Valid()
      ensures r.None? <==> current == |tokenList|
      ensures r.Some? ==> (r.value <==> Grammar.At(State(), c))
    {
      var cur :- Peek();
      return Some(cur.value == c);
    }

    /** `isCurrent(TOKEN_TYPE.…)`, which throws past the last token. */
    method IsCurrentKind(k: TokenKind) returns (r: Option<bool>)
      requires Valid()
      ensures r.None? <==> current == |tokenList|
      ensures r.Some? ==> (r.value <==> Grammar.AtKind(State(), k))
    {
      var cur :- Peek();
      return Some(cur.kind == k);
    }

    /** `isCurrent` of a literal text where a current token is known to exist. */
    method CurrentIs(c: string) returns (b: bool)
      requires current < |tokenList|
      ensures b <==> Grammar.At(State(), c)
    {
      var r := IsCurrent(c);
      return r.value;
    }

    /** `isCurrent(TOKEN_TYPE.…)` where a current token is known to exist. */
    method CurrentIsKind(k: TokenKind) returns (b: bool)
      requires current < |tokenList|
      ensures b <==> Grammar.AtKind(State(), k)
    {
      var r := IsCurrentKind(k);
      return r.value;
    }

    /**
     * `isCurrent` of a text known only at run time: a token-type name is compared
     * with the token's kind, any other text with the token's text.
     */
    method CurrentMatches(c: string) returns (b: bool)
      requires current < |tokenList|
      ensures b <==> Grammar.Matches(tokenList[current], c)
    {
      var cur := tokenList[current];
      if c in Grammar.TokenTypeNames {
        return KindName(cur.kind) == c;
      }
      return cur.value == c;
    }

    /** `expect`: a mismatch is reported and the cursor stays. */
    method Expect(c: string) returns (r: Option<()>)
      requires Valid()
      modifies this
      ensures r.None? <==> old(current) == |old(tokenList)|
      ensures r.None? ==> unchanged(this)
      ensures r.Some? ==> State() == Grammar.Expect(old(State()), c)
    {
      var matched :- IsCurrent(c);
      if !matched {
        var cur := tokenList[current];
        errorList := errorList + [CompileError("Expected " + c + ", but got " + JsonQuote(cur.value), cur.pos)];
      }
      return Some(());
    }

    /** `consume`: `expect`, then the current token is returned and passed. */
    method Consume(c: string) returns (r: Option<Token>)
      requires Valid()
      modifies this
      ensures Grammar.Agrees(r, Grammar.Consume(old(State()), c), State())
    {
      var _ :- Expect(c);
      var cur := tokenList[current];
      Next();
      return Some(cur);
    }

    /** `consume` where a current token is known to exist. */
    method Take(c: string) returns (t: Token)
      requires current < |tokenList|
      modifies this
      ensures (t, State()) == Grammar.Take(old(State()), c)
    {
      var r := Consume(c);
      return r.value;
    }

    // -------------------------------------------------------------------------
    // Scopes.

    /** `findVar`: the module scope is searched before the block scope. */
    method FindVar(tok: Token) returns (r: Option<VarNode>)
      ensures r == Grammar.FindVar(State(), tok)
    {
      var s := moduleScope + blockScope;
      for i := 0 to |s|
        invariant Grammar.FirstNamed(s[i..], tok.value) == Grammar.FirstNamed(s, tok.value)
      {
        assert s[i..][1..] == s[i + 1..];
        if s[i].name == tok.value {
          return Some(s[i]);
        }
      }
      assert s[|s|..] == [];
      return None;
    }

    /** `pushVar`. */
    method PushVar(tok: Token, ty: Type, isBlock: bool, isInput: bool) returns (v: VarNode)
      modifies this
      ensures (v, State()) == Grammar.PushVar(old(State()), tok, ty, isBlock, isInput)
    {
      var fv := FindVar(tok);
      if fv.Some? {
        if fv.value.valueType.kind != ty.kind {
          errorList := errorList + [CompileError("Variable " + JsonQuote(tok.value) + " is already defined as " + TypeKindName(fv.value.valueType.kind) + ".", ty.token.pos)];
          return Grammar.Clash(tok, fv.value.isInput);
        }
        return fv.value;
      }
      v := VarNode(tok.value, ty, tok, isInput);
      localVars := localVars + [v];
      if isBlock {
        blockScope := blockScope + [v];
      } else {
        moduleScope := moduleScope + [v];
      }
    }

    // -------------------------------------------------------------------------
    // Types.

    /** `isSimpleTypeName`: the simple type names, then their abbreviations. */
    method IsSimpleTypeName() returns (k: Option<TypeKind>)
      requires current < |tokenList|
      ensures k == Grammar.SimpleTypeName(State())
    {
      var names := Grammar.TypeNames;
      for i := 0 to |names|
        invariant Grammar.FirstTypeName(names[i..], tokenList[current]) == Grammar.FirstTypeName(names, tokenList[current])
      {
        assert names[i..][1..] == names[i + 1..];
        var hit := CurrentIs(names[i].0);
        if hit {
          return Some(names[i].1);
        }
      }
      assert names[|names|..] == [];
      return None;
    }

    /** Whether the current token can begin a type. */
    method StartsType() returns (b: bool)
      requires current < |tokenList|
      ensures b <==> Grammar.StartsType(State())
    {
      var simple := IsSimpleTypeName();
      if simple.Some? {
        return true;
      }
      var isList := CurrentIs("[");
      if isList {
        return true;
      }
      b := CurrentIs("{");
    }

    /** `parseType`. */
    method ParseType() returns (r: Option<Type>)
      requires Valid()
      modifies this
      ensures Grammar.Agrees(r, Grammar.ParseType(old(State())), State())
      decreases |tokenList| - current, 1
    {
      var tok :- Peek();
      var simple := IsSimpleTypeName();
      if simple.Some? {
        Next();
        return Some(Type(simple.value, tok, []));
      }
      var isList := CurrentIs("[");
      if isList {
        Next();
        r := ParseStructType(ListType, "]", tok);
        return;
      }
      var isVector := CurrentIs("{");
      if isVector {
        Next();
        r := ParseStructType(VectorType, "}", tok);
        return;
      }
      errorList := errorList + [CompileError("Expected type, but got " + JsonQuote(tok.value) + ".", tok.pos)];
      Next();
      return Some(Type(DummyType, tok, []));
    }

    /** The member types of a list or vector type, and its closing bracket. */
    method ParseStructType(kind: TypeKind, close: string, tok: Token) returns (r: Option<Type>)
      requires Valid()
      modifies this
      ensures Grammar.Agrees(r, Grammar.ParseStructType(kind, close, tok, old(State())), State())
      decreases |tokenList| - current, 2
    {
      var _ :- Peek();
      ghost var s0 := State();
      var starts := StartsType();
      if starts {
        var first :- ParseType();
        ghost var s1 := State();
        var members :- TypeList([first]);
        ghost var s2 := State();
        var _ := Take(close);
        assert Grammar.ParseType(s0) == Grammar.Parsed(first, s1);
        assert Grammar.TypeList([first], s1) == Grammar.Parsed(members, s2);
        return Some(Type(kind, tok, members));
      }
      var _ := Take(close);
      return Some(Type(kind, tok, []));
    }

    /** The `while (isCurrent(","))` loop over further member types. */
    method TypeList(init: seq<Type>) returns (r: Option<seq<Type>>)
      requires Valid()
      modifies this
      ensures Grammar.Agrees(r, Grammar.TypeList(init, old(State())), State())
      decreases |tokenList| - current, 0
    {
      var members := init;
      while true
        invariant Valid() && tokenList == old(tokenList) && old(current) <= current
        invariant Grammar.TypeList(init, old(State())) == Grammar.TypeList(members, State())
        decreases |tokenList| - current
      {
        var comma :- IsCurrent(",");
        if !comma {
          return Some(members);
        }
        Next();
        var m :- ParseType();
        members := members + [m];
      }
    }

    // -------------------------------------------------------------------------
    // Expressions.

    /** `parseExpr`. */
    method ParseExpr() returns (r: Option<Expr>)
      requires Valid()
      modifies this
      ensures Grammar.Agrees(r, Grammar.ParseExpr(old(State())), State())
      decreases |tokenList| - current, 31
    {
      r := ParseChain(Grammar.OrLevel);
    }

    /** The operator of a level that the current token is, if any. */
    method CurrentRule(lv: Grammar.Level) returns (r: Option<Grammar.OpRule>)
      requires current < |tokenList|
      ensures r == Grammar.FirstRule(Grammar.Rules(lv), tokenList[current])
    {
      var rules := Grammar.Rules(lv);
      for i := 0 to |rules|
        invariant Grammar.FirstRule(rules[i..], tokenList[current]) == Grammar.FirstRule(rules, tokenList[current])
      {
        assert rules[i..][1..] == rules[i + 1..];
        var hit := CurrentIs(rules[i].symbol);
        if hit {
          return Some(rules[i]);
        }
      }
      assert rules[|rules|..] == [];
      return None;
    }

    /**
     * `parseLogical`, `parseTerm`, `parseEquality`, `parseRelational`, `parseAdd`
     * and `parseMul`: one operand, then a `for(;;)` loop that folds each operator
     * and the next operand into the node.
     */
    method ParseChain(lv: Grammar.Level) returns (r: Option<Expr>)
      requires Valid()
      modifies this
      ensures Grammar.Agrees(r, Grammar.ParseChain(lv, old(State())), State())
      decreases |tokenList| - current, Grammar.ChainRank(lv)
    {
      var node :- ParseOperand(lv);
      while true
        invariant Valid() && tokenList == old(tokenList) && old(current) <= current
        invariant Grammar.ParseChain(lv, old(State())) == Grammar.ChainLoop(lv, node, State())
        decreases |tokenList| - current
      {
        var tok :- Peek();
        var rule := CurrentRule(lv);
        if rule.None? {
          return Some(node);
        }
        Next();
        var operand :- ParseOperand(lv);
        node := Grammar.Combine(rule.value, tok, node, operand);
      }
    }

    method ParseOperand(lv: Grammar.Level) returns (r: Option<Expr>)
      requires Valid()
      modifies this
      ensures Grammar.Agrees(r, Grammar.ParseOperand(lv, old(State())), State())
      decreases |tokenList| - current, Grammar.ChainRank(lv) - 1
    {
      match lv
      case OrLevel => r := ParseChain(Grammar.AndLevel);
      case AndLevel => r := ParseNotTerm();
      case EqualityLevel => r := ParseChain(Grammar.RelationalLevel);
      case RelationalLevel => r := ParseChain(Grammar.AddLevel);
      case AddLevel => r := ParseChain(Grammar.MulLevel);
      case MulLevel => r := ParsePow();
    }

    /** `parseNotTerm`. */
    method ParseNotTerm() returns (r: Option<Expr>)
      requires Valid()
      modifies this
      ensures Grammar.Agrees(r, Grammar.ParseNotTerm(old(State())), State())
      decreases |tokenList| - current, 26
    {
      var isNot :- IsCurrent("not");
      if isNot {
        var tok := Take("not");
        var _ :- Consume("(");
        var e :- ParseChain(Grammar.EqualityLevel);
        var _ :- Consume(")");
        return Some(Unary(tok, Not, e));
      }
      r := ParseChain(Grammar.EqualityLevel);
    }

    /** `parsePow`. */
    method ParsePow() returns (r: Option<Expr>)
      requires Valid()
      modifies this
      ensures Grammar.Agrees(r, Grammar.ParsePow(old(State())), State())
      decreases |tokenList| - current, 17
    {
      var node :- ParseUnary();
      var isPow :- IsCurrent("^");
      if isPow {
        var tok := tokenList[current];
        Next();
        var rhs :- ParsePow();
        return Some(Binary(tok, Pow, node, rhs));
      }
      return Some(node);
    }

    /** `parseUnary`. */
    method ParseUnary() returns (r: Option<Expr>)
      requires Valid()
      modifies this
      ensures Grammar.Agrees(r, Grammar.ParseUnary(old(State())), State())
      decreases |tokenList| - current, 16
    {
      var isMinus :- IsCurrent("-");
      if isMinus {
        var tok := Take("-");
        var p :- ParsePrimary();
        return Some(Unary(tok, Neg, p));
      }
      var isPlus := CurrentIs("+");
      if isPlus {
        Next();
      }
      r := ParsePrimary();
    }

    /** `parsePrimary`. */
    method ParsePrimary() returns (r: Option<Expr>)
      requires Valid()
      modifies this
      ensures Grammar.Agrees(r, Grammar.ParsePrimary(old(State())), State())
      decreases |tokenList| - current, 15
    {
      var tok :- Peek();
      var isSqrt := CurrentIs("sqrt");
      if isSqrt {
        Next();
        var e :- ParseCallArg();
        return Some(Sqrt(tok, e));
      }
      var isExp := CurrentIs("exp");
      if isExp {
        Next();
        var e :- ParseCallArg();
        return Some(Exp(tok, e));
      }
      var isParen := CurrentIs("(");
      if isParen {
        Next();
        var e :- ParseExpr();
        var _ :- Consume(")");
        return Some(e);
      }
      var isList := CurrentIs("[");
      if isList {
        r := ParseList();
        return;
      }
      var isVector := CurrentIs("{");
      if isVector {
        r := ParseVector();
        return;
      }
      match tok.kind
      case Number =>
        Next();
        return Some(Num(tok));
      case StringLit =>
        Next();
        return Some(Str(tok));
      case AtomLit =>
        Next();
        return Some(AtomExpr(tok));
      case IdentVar =>
        r := ParseVarRef();
      case _ =>
        errorList := errorList + [CompileError("Unexpected token " + JsonQuote(tok.value) + ".", tok.pos)];
        Next();
        return Some(Dummy(tok));
    }

    /** The parenthesised argument of `sqrt` and `exp`. */
    method ParseCallArg() returns (r: Option<Expr>)
      requires Valid()
      modifies this
      ensures Grammar.Agrees(r, Grammar.ParseCallArg(old(State())), State())
      decreases |tokenList| - current, 32
    {
      var _ :- Consume("(");
      var e :- ParseExpr();
      var _ :- Consume(")");
      return Some(e);
    }

    /** A list literal. */
    method ParseList() returns (r: Option<Expr>)
      requires Valid()
      modifies this
      ensures Grammar.Agrees(r, Grammar.ParseList(old(State())), State())
      decreases |tokenList| - current, 14
    {
      var tok :- Consume("[");
      var closed :- IsCurrent("]");
      if closed {
        var _ := Take("]");
        return Some(ListExpr(tok, []));
      }
      var first :- ParseUnary();
      var elems :- ListTail([first]);
      var _ :- Consume("]");
      return Some(ListExpr(tok, elems));
    }

    /** The test of the loop over further list or vector items. */
    method TailTurn(close: string) returns (r: Option<bool>)
      requires Valid()
      modifies this
      ensures Grammar.Agrees(r, Grammar.TailTurn(old(State()), close), State())
    {
      var comma :- IsCurrent(",");
      if !comma {
        return Some(false);
      }
      if current + 1 == |tokenList| {
        return None;
      }
      if tokenList[current + 1].value == close {
        Next();
        return Some(false);
      }
      Next();
      return Some(true);
    }

    /** The loop over further list elements. */
    method ListTail(init: seq<Expr>) returns (r: Option<seq<Expr>>)
      requires Valid()
      modifies this
      ensures Grammar.Agrees(r, Grammar.ListTail(init, old(State())), State())
      decreases |tokenList| - current, 14
    {
      var elems := init;
      while true
        invariant Valid() && tokenList == old(tokenList) && old(current) <= current
        invariant Grammar.ListTail(init, old(State())) == Grammar.ListTail(elems, State())
        decreases |tokenList| - current
      {
        var more :- TailTurn("]");
        if !more {
          return Some(elems);
        }
        var e :- ParseUnary();
        elems := elems + [e];
      }
    }

    /** A vector literal. */
    method ParseVector() returns (r: Option<Expr>)
      requires Valid()
      modifies this
      ensures Grammar.Agrees(r, Grammar.ParseVector(old(State())), State())
      decreases |tokenList| - current, 14
    {
      var tok :- Consume("{");
      var closed :- IsCurrent("}");
      if closed {
        var _ := Take("}");
        return Some(Vector(tok, []));
      }
      var first :- ParseMember();
      var members :- MemberTail([first]);
      var _ :- Consume("}");
      return Some(Vector(tok, members));
    }

    /** The loop over further vector members. */
    method MemberTail(init: seq<Member>) returns (r: Option<seq<Member>>)
      requires Valid()
      modifies this
      ensures Grammar.Agrees(r, Grammar.MemberTail(init, old(State())), State())
      decreases |tokenList| - current, 14
    {
      var members := init;
      while true
        invariant Valid() && tokenList == old(tokenList) && old(current) <= current
        invariant Grammar.MemberTail(init, old(State())) == Grammar.MemberTail(members, State())
        decreases |tokenList| - current
      {
        var more :- TailTurn("}");
        if !more {
          return Some(members);
        }
        var m :- ParseMember();
        members := members + [m];
      }
    }

    /** `parseMember`. */
    method ParseMember() returns (r: Option<Member>)
      requires Valid()
      modifies this
      ensures Grammar.Agrees(r, Grammar.ParseMember(old(State())), State())
      decreases |tokenList| - current, 17
    {
      var tok :- Peek();
      var isVar := CurrentIsKind(IdentVar);
      if isVar {
        var ty := Type(DummyType, tok, []);
        Next();
        var annotated :- IsCurrent(":");
        if annotated {
          Next();
          ty :- ParseType();
        }
        return Some(Member(tok, Var(VarNode(tok.value, ty, tok, false))));
      }
      var e :- ParseUnary();
      return Some(Member(tok, e));
    }

    /** A variable reference in `parsePrimary`. */
    method ParseVarRef() returns (r: Option<Expr>)
      requires current < |tokenList|
      modifies this
      ensures Grammar.Agrees(r, Grammar.ParseVarRef(old(State())), State())
    {
      var tok := tokenList[current];
      Next();
      var annotated :- IsCurrent(":");
      var ty := Grammar.UnannotatedType(tok);
      var isInput := false;
      if annotated {
        var _ := Take(":");
        ty :- ParseType();
        var v := PushVar(tok, ty, true, false);
        isInput := v.isInput;
      }
      var fv := FindVar(tok);
      if fv.None? {
        errorList := errorList + [CompileError("Variable " + JsonQuote(tok.value) + " is not defined.", ty.token.pos)];
        return Some(Dummy(tok));
      }
      return Some(Var(VarNode(tok.value, fv.value.valueType, tok, isInput)));
    }

    // -------------------------------------------------------------------------
    // Statements.

    /** The type check `parseBuildIn` applies to each bound of a `for`. */
    method CheckNumeric(e: Expr)
      modifies this
      ensures State() == Grammar.CheckNumeric(e, old(State()))
    {
      if e.Var? && e.v.valueType.kind != Integer && e.v.valueType.kind != Real {
        errorList := errorList + [CompileError("Expected integer or real, but got " + TypeKindName(e.v.valueType.kind) + ".", e.v.valueType.token.pos)];
      }
    }

    method ParseForRange(tok: Token) returns (r: Option<BuildIn>)
      requires Valid()
      modifies this
      ensures Grammar.Agrees(r, Grammar.ParseForRange(tok, old(State())), State())
    {
      var _ :- Consume("(");
      var from :- ParseExpr();
      CheckNumeric(from);
      var _ :- Consume(",");
      var upper :- ParseExpr();
      CheckNumeric(upper);
      var _ :- Consume(",");
      var inc :- ParseExpr();
      CheckNumeric(inc);
      var _ :- Consume(")");
      return Some(ForRange(tok, from, upper, inc));
    }

    method ParseSelect(tok: Token) returns (r: Option<BuildIn>)
      requires Valid()
      modifies this
      ensures Grammar.Agrees(r, Grammar.ParseSelect(tok, old(State())), State())
    {
      var _ :- Consume("(");
      var list :- ParsePrimary();
      if list.Var? && list.v.valueType.kind != ListType {
        errorList := errorList + [CompileError("Expected list, but got " + TypeKindName(list.v.valueType.kind) + ".", list.v.valueType.token.pos)];
      }
      var _ :- Consume(")");
      return Some(Select(tok, list));
    }

    /** `parseBuildIn`. */
    method ParseBuildIn() returns (r: Option<BuildIn>)
      requires Valid()
      modifies this
      ensures Grammar.Agrees(r, Grammar.ParseBuildIn(old(State())), State())
    {
      var tok :- Peek();
      var isFor := CurrentIs("for");
      if isFor {
        Next();
        r := ParseForRange(tok);
        return;
      }
      var isSelect := CurrentIs("select");
      if isSelect {
        Next();
        r := ParseSelect(tok);
        return;
      }
      var e :- ParseExpr();
      return Some(Calc(e));
    }

    /** `parseAssign`. */
    method ParseAssign() returns (r: Option<StmtExpr>)
      requires Valid()
      modifies this
      ensures Grammar.Agrees(r, Grammar.ParseAssign(old(State())), State())
    {
      var tok :- Peek();
      var lhs :- ParsePrimary();
      var _ :- Consume("=");
      var rhs :- ParseBuildIn();
      return Some(Assign(tok, lhs, rhs));
    }

    /** The loop of a `call` over the local module names. */
    method MatchModuleName() returns (name: string)
      requires current < |tokenList|
      ensures name == Grammar.MatchName(fnames, tokenList[current])
    {
      for i := 0 to |fnames|
        invariant Grammar.MatchName(fnames[i..], tokenList[current]) == Grammar.MatchName(fnames, tokenList[current])
      {
        assert fnames[i..][1..] == fnames[i + 1..];
        var hit := CurrentMatches(fnames[i]);
        if hit {
          return fnames[i];
        }
      }
      assert fnames[|fnames|..] == [];
      return "";
    }

    /** The module name of a `call`, or "dummy" and an error. */
    method CallTarget() returns (name: string)
      requires current < |tokenList|
      modifies this
      ensures (name, State()) == Grammar.CallTarget(old(State()))
    {
      var cur := tokenList[current];
      var isAtom := CurrentIsKind(AtomLit);
      var isReserved := CurrentIsKind(Reserved);
      name := "";
      if isAtom || isReserved {
        name := MatchModuleName();
      }
      if name == "" {
        errorList := errorList + [CompileError("Expected atom, but got " + JsonQuote(cur.value) + ".", cur.pos)];
        name := "dummy";
      }
    }

    /** `call ( module , primary , primary )` after the `call` keyword. */
    method ParseCall(tok: Token) returns (r: Option<StmtExpr>)
      requires Valid()
      modifies this
      ensures Grammar.Agrees(r, Grammar.ParseCall(tok, old(State())), State())
    {
      var _ :- Consume("(");
      var _ :- Peek();
      var name := CallTarget();
      Next();
      var _ :- Consume(",");
      var input :- ParsePrimary();
      var _ :- Consume(",");
      var output :- ParsePrimary();
      var _ :- Consume(")");
      return Some(CallStmt(tok, name, input, output));
    }

    /** `( expr )` after `test` and `when`. */
    method ParseCondition() returns (r: Option<Expr>)
      requires Valid()
      modifies this
      ensures Grammar.Agrees(r, Grammar.ParseCondition(old(State())), State())
    {
      var _ :- Consume("(");
      var e :- ParseExpr();
      var _ :- Consume(")");
      return Some(e);
    }

    /** `parseStmtExpr`. */
    method ParseStmtExpr() returns (r: Option<StmtExpr>)
      requires Valid()
      modifies this
      ensures Grammar.Agrees(r, Grammar.ParseStmtExpr(old(State())), State())
    {
      var tok :- Peek();
      var isTest := CurrentIs("test");
      if isTest {
        Next();
        var c :- ParseCondition();
        return Some(TestStmt(tok, c));
      }
      var isWhen := CurrentIs("when");
      if isWhen {
        Next();
        var c :- ParseCondition();
        return Some(When(tok, c));
      }
      var isCall := CurrentIs("call");
      if isCall {
        Next();
        r := ParseCall(tok);
        return;
      }
      r := ParseAssign();
    }

    /** The error for a missing `;`, shared by `parseStmt` and `parseBlock`. */
    method MissingSemicolon()
      requires current < |tokenList|
      modifies this
      ensures State() == Grammar.MissingSemicolon(old(State()))
    {
      var cur := tokenList[current];
      var message := "Expected ;, but got " + JsonQuote(cur.value) + ".";
      var atEof := CurrentIsKind(Eof);
      if atEof {
        errorList := errorList + [CompileError(message, Position(cur.pos.line - 1, cur.pos.character))];
      } else {
        errorList := errorList + [CompileError(message, cur.pos)];
        Next();
      }
    }

    /** `parseStmt`. */
    method ParseStmt() returns (r: Option<StmtNode>)
      requires Valid()
      modifies this
      ensures Grammar.Agrees(r, Grammar.ParseStmt(old(State())), State())
    {
      var tok :- Peek();
      var e :- ParseStmtExpr();
      var semicolon :- IsCurrent(";");
      if !semicolon {
        var cur := tokenList[current];
        MissingSemicolon();
        return Some(DummyStmt(cur));
      }
      Next();
      return Some(Stmt(tok, e));
    }

    /** The `while (!isCurrent("end"))` loop of a block. */
    method Stmts() returns (r: Option<seq<StmtNode>>)
      requires Valid()
      modifies this
      ensures Grammar.Agrees(r, Grammar.Stmts([], old(State())), State())
    {
      var body: seq<StmtNode> := [];
      while true
        invariant Valid() && tokenList == old(tokenList)
        invariant Grammar.Stmts([], old(State())) == Grammar.Stmts(body, State())
        decreases |tokenList| - current
      {
        var atEnd :- IsCurrent("end");
        if atEnd {
          return Some(body);
        }
        var s :- ParseStmt();
        body := body + [s];
      }
    }

    /** `parseBlock`. */
    method ParseBlock() returns (r: Option<BlockNode>)
      requires Valid()
      modifies this
      ensures Grammar.Agrees(r, Grammar.ParseBlock(old(State())), State())
    {
      var tok :- Peek();
      var _ := Expect("method");
      blockScope := [];
      Next();
      var body :- Stmts();
      Next();
      var _ :- Consume("method");
      var semicolon :- IsCurrent(";");
      if !semicolon {
        var cur := tokenList[current];
        MissingSemicolon();
        return Some(DummyBlock(cur));
      }
      Next();
      var varList := blockScope;
      blockScope := [];
      var split :- Grammar.SplitGuard(body);
      return Some(Block(tok, split.0, varList, split.1));
    }

    // -------------------------------------------------------------------------
    // Parameters and modules.

    /**
     * The loop of `parseParam` over the members of a vector parameter: the members
     * of the first vector parameter are marked as inputs, and every member is
     * declared in the module scope.
     */
    method DeclareMembers(ms: seq<Member>) returns (members: seq<Member>)
      modifies this
      ensures (members, State()) == Grammar.DeclareMembers(ms, old(State()))
    {
      ghost var s0 := State();
      members := [];
      for i := 0 to |ms|
        invariant (members, State()) == Grammar.DeclareMembers(ms[..i], s0)
      {
        assert ms[..i + 1][..i] == ms[..i];
        var m := ms[i];
        var isInput := paramMemberIndex == 0;
        members := members + [Grammar.MarkInput(m, isInput)];
        var _ := PushVar(m.token, Grammar.MemberType(m), false, isInput);
      }
      assert ms[..|ms|] == ms;
    }

    /** The `{` branch of `parseParam`. */
    method ParseVectorParam(tok: Token) returns (r: Option<ParamNode>)
      requires Valid()
      modifies this
      ensures Grammar.Agrees(r, Grammar.ParseVectorParam(tok, old(State())), State())
    {
      paramMemberIndex := paramMemberIndex + 1;
      var vector :- ParsePrimary();
      var p := DeclareVector(tok, vector);
      return Some(p);
    }

    /** A vector parameter declares the members of the vector literal; anything else is an error. */
    method DeclareVector(tok: Token, v: Expr) returns (p: ParamNode)
      modifies this
      ensures (p, State()) == Grammar.DeclareVector(tok, v, old(State()))
    {
      if !v.Vector? {
        errorList := errorList + [CompileError("Expected vector parameter, but got " + JsonQuote(tok.value) + ".", tok.pos)];
        return DummyParam(tok);
      }
      var members := DeclareMembers(v.members);
      return VectorParam(tok, members);
    }

    /** `parseParam`. */
    method ParseParam() returns (r: Option<ParamNode>)
      requires Valid()
      modifies this
      ensures Grammar.Agrees(r, Grammar.ParseParam(old(State())), State())
    {
      var tok :- Peek();
      var isAtom := CurrentIsKind(AtomLit);
      if isAtom {
        Next();
        fnames := fnames + [tok.value];
        return Some(AtomParam(tok));
      }
      var isVector := CurrentIs("{");
      if isVector {
        r := ParseVectorParam(tok);
        return;
      }
      errorList := errorList + [CompileError("Expected parameter, but got " + JsonQuote(tok.value) + ".", tok.pos)];
      return Some(DummyParam(tok));
    }

    /** `parseParams`. */
    method ParseParams() returns (r: Option<seq<ParamNode>>)
      requires Valid()
      modifies this
      ensures Grammar.Agrees(r, Grammar.ParseParams(old(State())), State())
    {
      var _ :- Consume("(");
      var closed :- IsCurrent(")");
      var params: seq<ParamNode> := [];
      if !closed {
        var first :- ParseParam();
        ghost var s2 := State();
        params := [first];
        while true
          invariant Valid() && tokenList == old(tokenList)
          invariant Grammar.ParamList([first], s2) == Grammar.ParamList(params, State())
          decreases |tokenList| - current
        {
          var comma :- IsCurrent(",");
          if !comma {
            break;
          }
          Next();
          var p :- ParseParam();
          params := params + [p];
        }
      }
      Next();
      return Some(params);
    }

    /** The module name: an ident-func or reserved word, recorded as the first local module name. */
    method ModuleName() returns (name: string)
      requires current < |tokenList|
      modifies this
      ensures (name, State()) == Grammar.ModuleName(old(State()))
    {
      var tok := tokenList[current];
      var isFunc := CurrentIsKind(IdentFunc);
      var isReserved := CurrentIsKind(Reserved);
      if isFunc || isReserved {
        name := tok.value;
        fnames := fnames + [name];
      } else {
        errorList := errorList + [CompileError("Expected module name, but got " + JsonQuote(tok.value) + ".", tok.pos)];
        name := "dummy";
      }
    }

    /** The `while (!isCurrent("end"))` loop of a module. */
    method Blocks() returns (r: Option<seq<BlockNode>>)
      requires Valid()
      modifies this
      ensures Grammar.Agrees(r, Grammar.Blocks([], old(State())), State())
    {
      var blocks: seq<BlockNode> := [];
      while true
        invariant Valid() && tokenList == old(tokenList)
        invariant Grammar.Blocks([], old(State())) == Grammar.Blocks(blocks, State())
        decreases |tokenList| - current
      {
        var atEnd :- IsCurrent("end");
        if atEnd {
          return Some(blocks);
        }
        var b :- ParseBlock();
        blocks := blocks + [b];
      }
    }

    /** `end`, an optional `module`, and `;`. */
    method ModuleEnd() returns (r: Option<Token>)
      requires current < |tokenList|
      modifies this
      ensures Grammar.Agrees(r, Grammar.ModuleEnd(old(State())), State())
    {
      Next();
      var isModule :- IsCurrent("module");
      if isModule {
        Next();
      }
      r := Consume(";");
    }

    /** `parseModule`. */
    method ParseModule() returns (r: Option<ModuleNode>)
      requires Valid()
      modifies this
      ensures Grammar.Agrees(r, Grammar.ParseModule(old(State())), State())
    {
      fnames, localVars := [], [];
      moduleScope, blockScope := [], [];
      assert State() == Grammar.ModuleStart(old(State()));
      var tok :- Peek();
      var name := ModuleName();
      Next();
      ghost var s1 := State();
      var params :- ParseParams();
      assert Grammar.ParseParams(s1) == Grammar.Parsed(params, State());
      ghost var s2 := State();
      var blocks :- Blocks();
      assert Grammar.Blocks([], s2) == Grammar.Parsed(blocks, State());
      ghost var s3 := State();
      var _ :- ModuleEnd();
      assert Grammar.ModuleEnd(s3).st == State();
      return Some(Module(tok, name, params, blocks, localVars));
    }

    /** `exec`: modules are parsed until the end-of-input token. */
    method Exec(tokens: seq<Token>) returns (r: Option<Grammar.ParseResult>)
      requires current <= |tokens|
      modifies this
      ensures Grammar.Agrees(r, Grammar.Exec(old(State()).(tokens := tokens)), State())
    {
      tokenList := tokens;
      ghost var s0 := State();
      while true
        invariant Valid() && tokenList == tokens
        invariant Grammar.Modules(s0) == Grammar.Modules(State())
        decreases |tokenList| - current
      {
        var atEof :- IsCurrentKind(Eof);
        if atEof {
          break;
        }
        var m :- ParseModule();
        program := program + [m];
      }
      return Some(Grammar.ParseResult(errorList, Program(program)));
    }
  }

  /** `parser(tokens)`: a new parser's `exec`; `None` where the source throws. */
  method Parse(tokens: seq<Token>) returns (r: Option<Grammar.ParseResult>)
    ensures r.None? <==> Grammar.Parse(tokens).Crashed?
    ensures r.Some? ==> r.value == Grammar.Parse(tokens).value
  {
    var p := new Parser();
    r := p.Exec(tokens);
  }
}
