/**
 * The statement scheduler of src/lib/compiler/sortStmt.ts: the statements of a
 * method block are classified as generators (`assume`), computations (`calc`)
 * and constraints (`test`), ordered depth-first by operand dependencies, and
 * runs of computations are merged into the constraint that follows them and
 * into each other.
 *
 * A StmtBlock is a JavaScript object and the scheduler compares such objects by
 * identity (Set membership, `includes`). Each block records the index of the
 * statement it was made from in `id`; a block is a function of its statement and
 * that index, so value equality of the blocks made by the classifier coincides
 * with identity.
 */
module SortStmt {
  import opened Base
  import opened Syntax

  datatype Phase = AssumePhase | CalcPhase | TestPhase

  /**
   * `target` is None where the source leaves it `undefined` (a constraint with no
   * variable in it); `operand` is None for generators, which carry no operand list.
   */
  datatype StmtBlock = StmtBlock(
    id: nat,
    token: Token,
    body: seq<StmtNode>,
    phase: Phase,
    target: Option<Expr>,
    operand: Option<seq<VarNode>>)

  /** The three lists built by the classifier, each in statement order. */
  datatype Categories = Categories(assumes: seq<StmtBlock>, calcs: seq<StmtBlock>, tests: seq<StmtBlock>)
  {
    function Add(b: StmtBlock): (c: Categories)
      ensures b.phase == AssumePhase ==> c == this.(assumes := assumes + [b])
      ensures b.phase == CalcPhase ==> c == this.(calcs := calcs + [b])
      ensures b.phase == TestPhase ==> c == this.(tests := tests + [b])
    {
      match b.phase
      case AssumePhase => this.(assumes := assumes + [b])
      case CalcPhase => this.(calcs := calcs + [b])
      case TestPhase => this.(tests := tests + [b])
    }

    predicate IsEmpty() {
      assumes == [] && calcs == [] && tests == []
    }
  }

  // ---------------------------------------------------------------------------
  // Names and tokens of expressions.

  /** The token a syntax node carries (`node.token`). */
  function TokenOf(e: Expr): Token {
    match e
    case Var(v) => v.token
    case Num(t) => t
    case Str(t) => t
    case AtomExpr(t) => t
    case ListExpr(t, _) => t
    case Vector(t, _) => t
    case Binary(t, _, _, _) => t
    case Unary(t, _, _) => t
    case Sqrt(t, _) => t
    case Exp(t, _) => t
    case Dummy(t) => t
  }

  /** `node.name`: the name of a variable node, `undefined` for any other node. */
  function NameOf(e: Expr): Option<string> {
    if e.Var? then Some(e.v.name) else None
  }

  /** `block.target.name`, for a block whose target is defined. */
  function TargetName(b: StmtBlock): Option<string>
    requires b.target.Some?
  {
    NameOf(b.target.value)
  }

  /** `s.includes(w)` on strings. */
  predicate Contains(s: string, w: string) {
    exists i :: 0 <= i <= |s| - |w| && OccursAt(s, w, i)
  }

  predicate OccursAt(s: string, w: string, i: int) {
    0 <= i <= |s| - |w| && s[i..i + |w|] == w
  }

  // ---------------------------------------------------------------------------
  // collectVariables (sortStmt.ts:5-18).

  /**
   * The variables met by a pre-order walk that descends only through the `lhs`
   * and `rhs` fields of operator nodes, keeping those the filter accepts: with
   * `dropInputs`, the filter `(v) => !v.isInput`, otherwise the default filter
   * that accepts everything. The deduplicating `filter` of line 16 discards its
   * result, so repeated variables stay.
   */
  function CollectVariables(e: Expr, dropInputs: bool): (vars: seq<VarNode>)
    ensures dropInputs ==> forall k :: 0 <= k < |vars| ==> !vars[k].isInput
  {
    match e
    case Var(v) => if dropInputs && v.isInput then [] else [v]
    case Binary(_, _, l, r) => CollectVariables(l, dropInputs) + CollectVariables(r, dropInputs)
    case Unary(_, _, x) => CollectVariables(x, dropInputs)
    case _ => []
  }

  /** The subsequence of `vars` without input variables. */
  function NonInputs(vars: seq<VarNode>): (r: seq<VarNode>)
    ensures |r| <= |vars|
  {
    if vars == [] then []
    else (if vars[0].isInput then [] else [vars[0]]) + NonInputs(vars[1..])
  }

  lemma {:induction false} NonInputsAppend(u: seq<VarNode>, v: seq<VarNode>)
    ensures NonInputs(u + v) == NonInputs(u) + NonInputs(v)
    decreases |u|
  {
    if u != [] {
      assert (u + v)[1..] == u[1..] + v;
      NonInputsAppend(u[1..], v);
    } else {
      assert u + v == v;
    }
  }

  /**
   * Filtering while walking is the same as walking and filtering afterwards:
   * the `!isInput` filter selects exactly the non-input occurrences, in order.
   */
  lemma {:induction false} CollectVariablesFilter(e: Expr)
    ensures CollectVariables(e, true) == NonInputs(CollectVariables(e, false))
  {
    match e
    case Var(v) =>
    case Binary(_, _, l, r) =>
      CollectVariablesFilter(l);
      CollectVariablesFilter(r);
      NonInputsAppend(CollectVariables(l, false), CollectVariables(r, false));
    case Unary(_, _, x) =>
      CollectVariablesFilter(x);
    case Num(_) =>
    case Str(_) =>
    case AtomExpr(_) =>
    case ListExpr(_, _) =>
    case Vector(_, _) =>
    case Sqrt(_, _) =>
    case Exp(_, _) =>
    case Dummy(_) =>
  }

  /** Occurrences are not merged: `X + X` yields the variable twice. */
  lemma RepeatedVariableKept(t: Token, v: VarNode)
    ensures CollectVariables(Binary(t, Add, Var(v), Var(v)), false) == [v, v]
  {
  }

  /** Variables below a `sqrt`, or inside a list or vector, are not collected. */
  lemma NoDescentBelowSqrt(t: Token, v: VarNode)
    ensures CollectVariables(Binary(t, Add, Var(v), Sqrt(t, Var(v))), false) == [v]
  {
  }

  // ---------------------------------------------------------------------------
  // classifyStatements (sortStmt.ts:21-93).

  /** `vars.find((v) => !v.isInput) ?? vars[0]`, as an index (0 when all are inputs). */
  function TargetIndex(vars: seq<VarNode>): (t: nat)
    requires vars != []
    ensures t < |vars|
    ensures forall k :: 0 <= k < t ==> vars[k].isInput
    ensures t > 0 ==> !vars[t].isInput
    ensures (exists k :: 0 <= k < |vars| && !vars[k].isInput) ==> !vars[t].isInput
    decreases |vars|
  {
    if !vars[0].isInput || |vars| == 1 then 0
    else
      var t := TargetIndex(vars[1..]);
      if vars[1..][t].isInput then 0 else t + 1
  }

  /**
   * The block of a constraint whose variables are `vars`: the target is the first
   * non-input variable (else the first variable), the operands are every other
   * occurrence, in order. Occurrences are distinct objects, so `v !== target`
   * removes only the chosen occurrence.
   */
  function TestBlock(id: nat, s: StmtNode, vars: seq<VarNode>): (b: StmtBlock)
    requires s.Stmt?
    ensures b.phase == TestPhase && b.body == [s] && b.id == id
    ensures b.target.None? <==> vars == []
    ensures b.operand.Some?
    ensures vars != [] ==>
      b.target.Some? && b.target.value.Var? &&
      multiset(b.operand.value) + multiset{b.target.value.v} == multiset(vars)
  {
    if vars == [] then StmtBlock(id, s.token, [s], TestPhase, None, Some([]))
    else
      var t := TargetIndex(vars);
      assert vars == vars[..t] + [vars[t]] + vars[t + 1..];
      StmtBlock(id, s.token, [s], TestPhase, Some(Var(vars[t])), Some(vars[..t] + vars[t + 1..]))
  }

  /** The operands of a computation: the non-input variables of an operator or `sqrt` right-hand side. */
  function CalcOperands(rhs: BuildIn): (ops: seq<VarNode>)
    ensures forall k :: 0 <= k < |ops| ==> !ops[k].isInput
  {
    if rhs.Calc? then
      match rhs.expr
      case Binary(_, _, _, _) => CollectVariables(rhs.expr, true)
      case Unary(_, _, _) => CollectVariables(rhs.expr, true)
      case Sqrt(_, arg) => CollectVariables(arg, true)
      case _ => []
    else []
  }

  /**
   * The block the classifier makes of statement number `id`, or None for a
   * statement it places in no category (`when` and `call`).
   */
  function BlockOf(s: StmtNode, id: nat): (r: Option<StmtBlock>)
    requires s.Stmt?
    ensures r.Some? <==> s.stmt.Assign? || s.stmt.TestStmt?
    ensures r.Some? ==> r.value.id == id && r.value.body == [s] && r.value.token == s.token
    ensures r.Some? && r.value.phase != TestPhase ==> r.value.target.Some?
  {
    match s.stmt
    case Assign(_, lhs, rhs) =>
      if rhs.ForRange? || rhs.Select? then
        Some(StmtBlock(id, s.token, [s], AssumePhase, Some(lhs), None))
      else if !Contains(TokenOf(lhs).value, "constraint") then
        Some(StmtBlock(id, s.token, [s], CalcPhase, Some(lhs), Some(CalcOperands(rhs))))
      else
        Some(TestBlock(id, s, CollectVariables(rhs.expr, false)))
    case TestStmt(_, cond) => Some(TestBlock(id, s, CollectVariables(cond, false)))
    case When(_, _) => None
    case CallStmt(_, _, _, _) => None
  }

  /** The three categories after the classifier has seen `stmts` (none of them a dummy). */
  function Categorised(stmts: seq<StmtNode>): (c: Categories)
    requires forall k :: 0 <= k < |stmts| ==> stmts[k].Stmt?
    decreases |stmts|
  {
    if stmts == [] then Categories([], [], [])
    else
      var c := Categorised(stmts[..|stmts| - 1]);
      match BlockOf(stmts[|stmts| - 1], |stmts| - 1)
      case None => c
      case Some(b) => c.Add(b)
  }

  predicate HasDummy(stmts: seq<StmtNode>) {
    exists k :: 0 <= k < |stmts| && stmts[k].DummyStmt?
  }

  /** What classifyStatements returns: null (None) on a dummy statement or when every category is empty. */
  function Classify(stmts: seq<StmtNode>): Option<Categories> {
    if HasDummy(stmts) then None
    else
      var c := Categorised(stmts);
      if c.IsEmpty() then None else Some(c)
  }

  method ClassifyStatements(stmt: seq<StmtNode>) returns (r: Option<Categories>)
    ensures r == Classify(stmt)
  {
    var categories := Categories([], [], []);
    for k := 0 to |stmt|
      invariant forall j :: 0 <= j < k ==> stmt[j].Stmt?
      invariant categories == Categorised(stmt[..k])
    {
      var s := stmt[k];
      if s.DummyStmt? {
        return None;
      }
      assert stmt[..k + 1][..k] == stmt[..k];
      var b := BlockOf(s, k);
      if b.Some? {
        categories := categories.Add(b.value);
      }
    }
    assert stmt[..|stmt|] == stmt;
    if categories.IsEmpty() {
      return None;
    }
    return Some(categories);
  }

  /** Whether `b` is one of the blocks made from `stmts`. */
  predicate MadeFrom(b: StmtBlock, stmts: seq<StmtNode>)
    requires forall k :: 0 <= k < |stmts| ==> stmts[k].Stmt?
  {
    b.id < |stmts| && BlockOf(stmts[b.id], b.id) == Some(b)
  }

  /** Blocks in `bs` are made from `stmts`, have phase `p`, and appear in statement order. */
  predicate Lists(bs: seq<StmtBlock>, stmts: seq<StmtNode>, p: Phase)
    requires forall k :: 0 <= k < |stmts| ==> stmts[k].Stmt?
  {
    && (forall k :: 0 <= k < |bs| ==> MadeFrom(bs[k], stmts) && bs[k].phase == p)
    && (forall k, m :: 0 <= k < m < |bs| ==> bs[k].id < bs[m].id)
  }

  lemma {:induction false} ListsGrow(bs: seq<StmtBlock>, stmts: seq<StmtNode>, p: Phase)
    requires |stmts| > 0 && forall k :: 0 <= k < |stmts| ==> stmts[k].Stmt?
    requires Lists(bs, stmts[..|stmts| - 1], p)
    ensures Lists(bs, stmts, p)
  {
    var prefix := stmts[..|stmts| - 1];
    forall k | 0 <= k < |bs|
      ensures MadeFrom(bs[k], stmts)
    {
      assert MadeFrom(bs[k], prefix);
      assert stmts[bs[k].id] == prefix[bs[k].id];
    }
  }

  lemma {:induction false} ListsAppend(bs: seq<StmtBlock>, stmts: seq<StmtNode>, b: StmtBlock)
    requires |stmts| > 0 && forall k :: 0 <= k < |stmts| ==> stmts[k].Stmt?
    requires Lists(bs, stmts[..|stmts| - 1], b.phase)
    requires BlockOf(stmts[|stmts| - 1], |stmts| - 1) == Some(b)
    ensures Lists(bs + [b], stmts, b.phase)
  {
    ListsGrow(bs, stmts, b.phase);
    forall k | 0 <= k < |bs|
      ensures bs[k].id < b.id
    {
      assert MadeFrom(bs[k], stmts[..|stmts| - 1]);
    }
  }

  /**
   * Every block the classifier lists was made from one of the statements, carries
   * the phase of its list, and each list keeps statement order.
   */
  lemma {:induction false} CategorisedSound(stmts: seq<StmtNode>)
    requires forall k :: 0 <= k < |stmts| ==> stmts[k].Stmt?
    ensures Lists(Categorised(stmts).assumes, stmts, AssumePhase)
    ensures Lists(Categorised(stmts).calcs, stmts, CalcPhase)
    ensures Lists(Categorised(stmts).tests, stmts, TestPhase)
    decreases |stmts|
  {
    if stmts != [] {
      var prefix := stmts[..|stmts| - 1];
      CategorisedSound(prefix);
      var c := Categorised(prefix);
      ListsGrow(c.assumes, stmts, AssumePhase);
      ListsGrow(c.calcs, stmts, CalcPhase);
      ListsGrow(c.tests, stmts, TestPhase);
      var b := BlockOf(stmts[|stmts| - 1], |stmts| - 1);
      if b.Some? {
        ListsAppend(
          match b.value.phase
          case AssumePhase => c.assumes
          case CalcPhase => c.calcs
          case TestPhase => c.tests,
          stmts, b.value);
      }
    }
  }

  /** Every assignment and every `test` statement is placed in the list of its block's phase. */
  lemma {:induction false} CategorisedComplete(stmts: seq<StmtNode>, k: nat)
    requires forall j :: 0 <= j < |stmts| ==> stmts[j].Stmt?
    requires k < |stmts| && BlockOf(stmts[k], k).Some?
    ensures var b := BlockOf(stmts[k], k).value;
      var c := Categorised(stmts);
      b in (match b.phase case AssumePhase => c.assumes case CalcPhase => c.calcs case TestPhase => c.tests)
    decreases |stmts|
  {
    if k < |stmts| - 1 {
      var prefix := stmts[..|stmts| - 1];
      assert prefix[k] == stmts[k];
      CategorisedComplete(prefix, k);
    }
  }

  /** classifyStatements returns null exactly on a dummy statement or when no statement is an assignment or a `test`. */
  lemma ClassifyNull(stmts: seq<StmtNode>)
    ensures Classify(stmts).None? <==>
      HasDummy(stmts) || forall k :: 0 <= k < |stmts| ==> !(stmts[k].stmt.Assign? || stmts[k].stmt.TestStmt?)
  {
    if !HasDummy(stmts) {
      var c := Categorised(stmts);
      if exists k :: 0 <= k < |stmts| && (stmts[k].stmt.Assign? || stmts[k].stmt.TestStmt?) {
        var k :| 0 <= k < |stmts| && (stmts[k].stmt.Assign? || stmts[k].stmt.TestStmt?);
        CategorisedComplete(stmts, k);
      } else {
        CategorisedEmpty(stmts);
      }
    }
  }

  lemma {:induction false} CategorisedEmpty(stmts: seq<StmtNode>)
    requires forall k :: 0 <= k < |stmts| ==> stmts[k].Stmt? && !(stmts[k].stmt.Assign? || stmts[k].stmt.TestStmt?)
    ensures Categorised(stmts).IsEmpty()
    decreases |stmts|
  {
    if stmts != [] {
      CategorisedEmpty(stmts[..|stmts| - 1]);
    }
  }

  /** `for` and `select` assignments are generators whose target is the left-hand side. */
  lemma GeneratorIsAssume(s: StmtNode, id: nat)
    requires s.Stmt? && s.stmt.Assign? && (s.stmt.rhs.ForRange? || s.stmt.rhs.Select?)
    ensures BlockOf(s, id).value.phase == AssumePhase
    ensures BlockOf(s, id).value.target == Some(s.stmt.lhs)
    ensures BlockOf(s, id).value.operand.None?
  {
  }

  /**
   * Any other assignment whose left-hand side does not mention "constraint" is a
   * computation of its left-hand side; its operands are the non-input variables
   * of an operator or `sqrt` right-hand side and nothing otherwise.
   */
  lemma CalcClassified(s: StmtNode, id: nat)
    requires s.Stmt? && s.stmt.Assign? && s.stmt.rhs.Calc?
    requires !Contains(TokenOf(s.stmt.lhs).value, "constraint")
    ensures BlockOf(s, id).value.phase == CalcPhase
    ensures BlockOf(s, id).value.target == Some(s.stmt.lhs)
    ensures var e := s.stmt.rhs.expr;
      BlockOf(s, id).value.operand ==
        Some(if e.Binary? || e.Unary? then NonInputs(CollectVariables(e, false))
             else if e.Sqrt? then NonInputs(CollectVariables(e.arg, false))
             else [])
  {
    var e := s.stmt.rhs.expr;
    if e.Binary? || e.Unary? {
      CollectVariablesFilter(e);
    } else if e.Sqrt? {
      CollectVariablesFilter(e.arg);
    }
  }

  /**
   * A `test` statement is a constraint on its first non-input variable (the first
   * variable when all are inputs); the other occurrences are its operands.
   */
  lemma TestClassified(s: StmtNode, id: nat)
    requires s.Stmt? && s.stmt.TestStmt?
    requires CollectVariables(s.stmt.cond, false) != []
    ensures var b := BlockOf(s, id).value;
      var vars := CollectVariables(s.stmt.cond, false);
      && b.phase == TestPhase
      && b.target.Some? && b.target.value.Var?
      && (b.target.value.v.isInput ==> forall k :: 0 <= k < |vars| ==> vars[k].isInput)
      && multiset(b.operand.value) + multiset{b.target.value.v} == multiset(vars)
  {
  }

  // ---------------------------------------------------------------------------
  // resolveDependencies and mergeBlocks (sortStmt.ts:96-161).

  /** Blocks whose target is defined, so that `target.name` can be read. */
  predicate Targeted(list: seq<StmtBlock>) {
    forall k :: 0 <= k < |list| ==> list[k].target.Some?
  }

  predicate NoDup(list: seq<StmtBlock>) {
    forall k, m :: 0 <= k < m < |list| ==> list[k] != list[m]
  }

  /** `list.find((b) => b.target.name === name)`: the first block with that target name. */
  function FindByName(list: seq<StmtBlock>, name: Option<string>): (r: Option<StmtBlock>)
    requires Targeted(list)
    ensures r.Some? ==> r.value in list && TargetName(r.value) == name
    ensures r.None? <==> forall k :: 0 <= k < |list| ==> TargetName(list[k]) != name
    decreases |list|
  {
    if list == [] then None
    else if TargetName(list[0]) == name then Some(list[0])
    else FindByName(list[1..], name)
  }

  /** Whether some block in `sorted` already defines `name`. */
  predicate Defines(sorted: seq<StmtBlock>, name: string)
    requires Targeted(sorted)
  {
    exists k :: 0 <= k < |sorted| && TargetName(sorted[k]) == Some(name)
  }

  /** The operands no block of `sorted` defines yet, in order (`operand?.filter(...)`). */
  function Unresolved(ops: seq<VarNode>, sorted: seq<StmtBlock>): (r: seq<VarNode>)
    requires Targeted(sorted)
    ensures forall k :: 0 <= k < |r| ==> r[k] in ops && !Defines(sorted, r[k].name)
    decreases |ops|
  {
    if ops == [] then []
    else (if Defines(sorted, ops[0].name) then [] else [ops[0]]) + Unresolved(ops[1..], sorted)
  }

  function UnresolvedOf(stmt: StmtBlock, sorted: seq<StmtBlock>): seq<VarNode>
    requires Targeted(sorted)
  {
    if stmt.operand.Some? then Unresolved(stmt.operand.value, sorted) else []
  }

  /**
   * resolveDependencies(stmt, sorted, assumeList, otherCalc) on a set holding
   * `sorted` (in insertion order): Some(the new contents), or None when the
   * recursion runs deeper than `fuel` frames and the JavaScript stack overflows.
   * Blocks are only ever appended, and only `stmt`, generators and other
   * computations are appended.
   */
  function Resolve(stmt: StmtBlock, sorted: seq<StmtBlock>, assumes: seq<StmtBlock>, others: seq<StmtBlock>, fuel: nat)
    : (r: Option<seq<StmtBlock>>)
    requires Targeted(assumes) && Targeted(others) && Targeted(sorted) && stmt.target.Some?
    ensures r.Some? ==> Targeted(r.value) && sorted <= r.value && stmt in r.value
    ensures r.Some? ==> forall k :: |sorted| <= k < |r.value| ==>
      r.value[k] == stmt || r.value[k] in assumes || r.value[k] in others
    ensures r.Some? && NoDup(sorted) ==> NoDup(r.value)
    decreases fuel, 0
  {
    if fuel == 0 then None
    else
      match ResolveDeps(UnresolvedOf(stmt, sorted), 0, sorted, assumes, others, fuel - 1)
      case None => None
      case Some(s) => Some(if stmt in s then s else s + [stmt])
  }

  /**
   * Resolving a block found by `find`, unless it is undefined or already in the
   * set (`if (found && !sorted.has(found)) resolveDependencies(found, ...)`).
   */
  function ResolveFound(found: Option<StmtBlock>, sorted: seq<StmtBlock>, assumes: seq<StmtBlock>, others: seq<StmtBlock>, fuel: nat)
    : (r: Option<seq<StmtBlock>>)
    requires Targeted(assumes) && Targeted(others) && Targeted(sorted)
    requires found.Some? ==> found.value in assumes || found.value in others
    ensures r.Some? ==> Targeted(r.value) && sorted <= r.value
    ensures r.Some? ==> forall m :: |sorted| <= m < |r.value| ==> r.value[m] in assumes || r.value[m] in others
    ensures r.Some? && NoDup(sorted) ==> NoDup(r.value)
    ensures r.Some? && found.Some? ==> found.value in r.value
    decreases fuel, 1
  {
    match found
    case None => Some(sorted)
    case Some(b) => if b in sorted then Some(sorted) else Resolve(b, sorted, assumes, others, fuel)
  }

  /** The body of the loop over unresolved operands, for an operand named `name`. */
  function DepStep(name: string, sorted: seq<StmtBlock>, assumes: seq<StmtBlock>, others: seq<StmtBlock>, fuel: nat)
    : (r: Option<seq<StmtBlock>>)
    requires Targeted(assumes) && Targeted(others) && Targeted(sorted)
    ensures r.Some? ==> Targeted(r.value) && sorted <= r.value
    ensures r.Some? ==> forall m :: |sorted| <= m < |r.value| ==> r.value[m] in assumes || r.value[m] in others
    ensures r.Some? && NoDup(sorted) ==> NoDup(r.value)
    ensures r.Some? ==> Covers(r.value, name, assumes, others)
    decreases fuel, 2
  {
    match ResolveFound(FindByName(assumes, Some(name)), sorted, assumes, others, fuel)
    case None => None
    case Some(s1) => ResolveFound(FindByName(others, Some(name)), s1, assumes, others, fuel)
  }

  /** The first generator and the first other computation defining `name`, where they exist, are in `sorted`. */
  predicate Covers(sorted: seq<StmtBlock>, name: string, assumes: seq<StmtBlock>, others: seq<StmtBlock>)
    requires Targeted(assumes) && Targeted(others)
  {
    && (FindByName(assumes, Some(name)).Some? ==> FindByName(assumes, Some(name)).value in sorted)
    && (FindByName(others, Some(name)).Some? ==> FindByName(others, Some(name)).value in sorted)
  }

  /** The loop over the unresolved operands, from the `k`-th on. */
  function ResolveDeps(deps: seq<VarNode>, k: nat, sorted: seq<StmtBlock>, assumes: seq<StmtBlock>, others: seq<StmtBlock>, fuel: nat)
    : (r: Option<seq<StmtBlock>>)
    requires k <= |deps|
    requires Targeted(assumes) && Targeted(others) && Targeted(sorted)
    ensures r.Some? ==> Targeted(r.value) && sorted <= r.value
    ensures r.Some? ==> forall m :: |sorted| <= m < |r.value| ==> r.value[m] in assumes || r.value[m] in others
    ensures r.Some? && NoDup(sorted) ==> NoDup(r.value)
    decreases fuel, 3, |deps| - k
  {
    if k == |deps| then Some(sorted)
    else
      match DepStep(deps[k].name, sorted, assumes, others, fuel)
      case None => None
      case Some(s) => ResolveDeps(deps, k + 1, s, assumes, others, fuel)
  }

  lemma CoversGrow(s: seq<StmtBlock>, r: seq<StmtBlock>, name: string, assumes: seq<StmtBlock>, others: seq<StmtBlock>)
    requires Targeted(assumes) && Targeted(others)
    requires s <= r && Covers(s, name, assumes, others)
    ensures Covers(r, name, assumes, others)
  {
    forall b | b in s
      ensures b in r
    {
      var i :| 0 <= i < |s| && s[i] == b;
      assert r[i] == b;
    }
  }

  /**
   * Every unresolved operand from the `k`-th on has its first generator and its
   * first other computation in the result.
   */
  lemma {:induction false} ResolveDepsCovers(deps: seq<VarNode>, k: nat, sorted: seq<StmtBlock>, assumes: seq<StmtBlock>, others: seq<StmtBlock>, fuel: nat)
    requires k <= |deps|
    requires Targeted(assumes) && Targeted(others) && Targeted(sorted)
    requires ResolveDeps(deps, k, sorted, assumes, others, fuel).Some?
    ensures forall j :: k <= j < |deps| ==>
      Covers(ResolveDeps(deps, k, sorted, assumes, others, fuel).value, deps[j].name, assumes, others)
    decreases |deps| - k
  {
    if k < |deps| {
      var s := DepStep(deps[k].name, sorted, assumes, others, fuel).value;
      ResolveDepsCovers(deps, k + 1, s, assumes, others, fuel);
      var r := ResolveDeps(deps, k + 1, s, assumes, others, fuel).value;
      CoversGrow(s, r, deps[k].name, assumes, others);
    }
  }

  /**
   * resolveDependencies puts into the set the first generator and the first
   * other computation defining each operand that was unresolved on entry. (The
   * block itself is appended once its operands are resolved, unless a cyclic
   * dependency already added it while they were being resolved; a cycle
   * through blocks that are not yet in the set recurses until the stack
   * overflows.)
   */
  lemma ResolveCovers(stmt: StmtBlock, sorted: seq<StmtBlock>, assumes: seq<StmtBlock>, others: seq<StmtBlock>, fuel: nat)
    requires Targeted(assumes) && Targeted(others) && Targeted(sorted) && stmt.target.Some?
    requires Resolve(stmt, sorted, assumes, others, fuel).Some?
    ensures var r := Resolve(stmt, sorted, assumes, others, fuel).value;
      var deps := UnresolvedOf(stmt, sorted);
      forall j :: 0 <= j < |deps| ==> Covers(r, deps[j].name, assumes, others)
  {
    var deps := UnresolvedOf(stmt, sorted);
    ResolveDepsCovers(deps, 0, sorted, assumes, others, fuel - 1);
    var s := ResolveDeps(deps, 0, sorted, assumes, others, fuel - 1).value;
    var r := Resolve(stmt, sorted, assumes, others, fuel).value;
    forall j | 0 <= j < |deps|
      ensures Covers(r, deps[j].name, assumes, others)
    {
      CoversGrow(s, r, deps[j].name, assumes, others);
    }
  }

  /**
   * A depth bound under which resolveDependencies completes gives the same set
   * as any larger one: the bound only decides where the stack overflows.
   */
  lemma {:induction false} ResolveMoreFuel(stmt: StmtBlock, sorted: seq<StmtBlock>, assumes: seq<StmtBlock>, others: seq<StmtBlock>,
                                           f: nat, g: nat)
    requires Targeted(assumes) && Targeted(others) && Targeted(sorted) && stmt.target.Some?
    requires f <= g && Resolve(stmt, sorted, assumes, others, f).Some?
    ensures Resolve(stmt, sorted, assumes, others, g) == Resolve(stmt, sorted, assumes, others, f)
    decreases f, 1
  {
    assert f > 0;
    var f1: nat, g1: nat :| f1 + 1 == f && g1 + 1 == g;
    assert ResolveDeps(UnresolvedOf(stmt, sorted), 0, sorted, assumes, others, f1).Some?;
    ResolveStepMoreFuel(stmt, sorted, assumes, others, f, g, f1, g1);
  }

  /** The step of that induction: the operand loops one frame below agree, so the calls do. */
  lemma {:induction false} ResolveStepMoreFuel(stmt: StmtBlock, sorted: seq<StmtBlock>, assumes: seq<StmtBlock>, others: seq<StmtBlock>,
                                               f: nat, g: nat, f1: nat, g1: nat)
    requires Targeted(assumes) && Targeted(others) && Targeted(sorted) && stmt.target.Some?
    requires f == f1 + 1 && g == g1 + 1
    requires f1 <= g1 && ResolveDeps(UnresolvedOf(stmt, sorted), 0, sorted, assumes, others, f1).Some?
    ensures Resolve(stmt, sorted, assumes, others, g) == Resolve(stmt, sorted, assumes, others, f)
    decreases f, 0
  {
    ResolveDepsMoreFuel(UnresolvedOf(stmt, sorted), 0, sorted, assumes, others, f1, g1);
  }

  lemma {:induction false} ResolveFoundMoreFuel(found: Option<StmtBlock>, sorted: seq<StmtBlock>, assumes: seq<StmtBlock>,
                                                others: seq<StmtBlock>, f: nat, g: nat)
    requires Targeted(assumes) && Targeted(others) && Targeted(sorted)
    requires found.Some? ==> found.value in assumes || found.value in others
    requires f <= g && ResolveFound(found, sorted, assumes, others, f).Some?
    ensures ResolveFound(found, sorted, assumes, others, g) == ResolveFound(found, sorted, assumes, others, f)
    decreases f, 2
  {
    if found.Some? && found.value !in sorted {
      ResolveMoreFuel(found.value, sorted, assumes, others, f, g);
    }
  }

  lemma {:induction false} DepStepMoreFuel(name: string, sorted: seq<StmtBlock>, assumes: seq<StmtBlock>, others: seq<StmtBlock>,
                                           f: nat, g: nat)
    requires Targeted(assumes) && Targeted(others) && Targeted(sorted)
    requires f <= g && DepStep(name, sorted, assumes, others, f).Some?
    ensures DepStep(name, sorted, assumes, others, g) == DepStep(name, sorted, assumes, others, f)
    decreases f, 3
  {
    var gen := FindByName(assumes, Some(name));
    ResolveFoundMoreFuel(gen, sorted, assumes, others, f, g);
    var s1 := ResolveFound(gen, sorted, assumes, others, f).value;
    ResolveFoundMoreFuel(FindByName(others, Some(name)), s1, assumes, others, f, g);
  }

  lemma {:induction false} ResolveDepsMoreFuel(deps: seq<VarNode>, k: nat, sorted: seq<StmtBlock>, assumes: seq<StmtBlock>,
                                               others: seq<StmtBlock>, f: nat, g: nat)
    requires k <= |deps|
    requires Targeted(assumes) && Targeted(others) && Targeted(sorted)
    requires f <= g && ResolveDeps(deps, k, sorted, assumes, others, f).Some?
    ensures ResolveDeps(deps, k, sorted, assumes, others, g) == ResolveDeps(deps, k, sorted, assumes, others, f)
    decreases f, 4, |deps| - k
  {
    if k < |deps| {
      DepStepMoreFuel(deps[k].name, sorted, assumes, others, f, g);
      var s := DepStep(deps[k].name, sorted, assumes, others, f).value;
      ResolveDepsMoreFuel(deps, k + 1, s, assumes, others, f, g);
    }
  }

  /**
   * The shared set of blocks that resolveDependencies and mergeBlocks grow;
   * `sorted` holds its elements in insertion order.
   */
  class Scheduler {
    var sorted: seq<StmtBlock>

    constructor()
      ensures sorted == []
    {
      sorted := [];
    }

    method ResolveDependencies(stmt: StmtBlock, assumeList: seq<StmtBlock>, otherCalc: seq<StmtBlock>, fuel: nat)
      returns (ok: bool)
      requires Targeted(assumeList) && Targeted(otherCalc) && Targeted(sorted) && stmt.target.Some?
      modifies this
      ensures Resolve(stmt, old(sorted), assumeList, otherCalc, fuel) == (if ok then Some(sorted) else None)
      decreases fuel, 0
    {
      if fuel == 0 {
        return false;
      }
      ok := ResolveOperands(UnresolvedOf(stmt, sorted), assumeList, otherCalc, fuel - 1);
      if !ok {
        return;
      }
      if stmt.phase == AssumePhase && stmt !in sorted {
        sorted := sorted + [stmt];
        return true;
      }
      if stmt !in sorted {
        sorted := sorted + [stmt];
      }
      return true;
    }

    /** The loop of resolveDependencies over the operands not yet defined. */
    method ResolveOperands(unresolved: seq<VarNode>, assumeList: seq<StmtBlock>, otherCalc: seq<StmtBlock>, fuel: nat)
      returns (ok: bool)
      requires Targeted(assumeList) && Targeted(otherCalc) && Targeted(sorted)
      modifies this
      ensures ResolveDeps(unresolved, 0, old(sorted), assumeList, otherCalc, fuel) == (if ok then Some(sorted) else None)
      decreases fuel, 3
    {
      ghost var start := sorted;
      for k := 0 to |unresolved|
        invariant Targeted(sorted)
        invariant ResolveDeps(unresolved, 0, start, assumeList, otherCalc, fuel)
               == ResolveDeps(unresolved, k, sorted, assumeList, otherCalc, fuel)
      {
        ghost var before := sorted;
        ok := ResolveOperand(unresolved[k].name, assumeList, otherCalc, fuel);
        if !ok {
          assert ResolveDeps(unresolved, k, before, assumeList, otherCalc, fuel).None?;
          return;
        }
        assert ResolveDeps(unresolved, k, before, assumeList, otherCalc, fuel)
            == ResolveDeps(unresolved, k + 1, sorted, assumeList, otherCalc, fuel);
      }
      ok := true;
    }

    /** The loop body of resolveDependencies: the generator, then the computation, named `name`. */
    method ResolveOperand(name: string, assumeList: seq<StmtBlock>, otherCalc: seq<StmtBlock>, fuel: nat)
      returns (ok: bool)
      requires Targeted(assumeList) && Targeted(otherCalc) && Targeted(sorted)
      modifies this
      ensures DepStep(name, old(sorted), assumeList, otherCalc, fuel) == (if ok then Some(sorted) else None)
      decreases fuel, 2
    {
      var gen := FindByName(assumeList, Some(name));
      ok := ResolveIfAbsent(gen, assumeList, otherCalc, fuel);
      if !ok {
        return;
      }
      var comp := FindByName(otherCalc, Some(name));
      ok := ResolveIfAbsent(comp, assumeList, otherCalc, fuel);
    }

    /** One half of the loop body: resolve `found` unless it is missing or already sorted. */
    method ResolveIfAbsent(found: Option<StmtBlock>, assumeList: seq<StmtBlock>, otherCalc: seq<StmtBlock>, fuel: nat)
      returns (ok: bool)
      requires Targeted(assumeList) && Targeted(otherCalc) && Targeted(sorted)
      requires found.Some? ==> found.value in assumeList || found.value in otherCalc
      modifies this
      ensures ResolveFound(found, old(sorted), assumeList, otherCalc, fuel) == (if ok then Some(sorted) else None)
      decreases fuel, 1
    {
      if found.Some? && found.value !in sorted {
        ok := ResolveDependencies(found.value, assumeList, otherCalc, fuel);
      } else {
        ok := true;
      }
    }
  }

  /** The first loop of mergeBlocks: each computation some test needs, then that test. */
  function MergeTestCalc(testCalc: seq<StmtBlock>, k: nat, sorted: seq<StmtBlock>,
                         assumes: seq<StmtBlock>, others: seq<StmtBlock>, tests: seq<StmtBlock>, fuel: nat)
    : (r: Option<seq<StmtBlock>>)
    requires k <= |testCalc|
    requires Targeted(testCalc) && Targeted(assumes) && Targeted(others) && Targeted(tests) && Targeted(sorted)
    ensures r.Some? ==> Targeted(r.value) && sorted <= r.value
    ensures r.Some? && NoDup(sorted) ==> NoDup(r.value)
    ensures r.Some? ==> forall m :: |sorted| <= m < |r.value| ==>
      r.value[m] in testCalc || r.value[m] in assumes || r.value[m] in others || FirstOnTarget(r.value[m], tests)
    decreases |testCalc| - k
  {
    if k == |testCalc| then Some(sorted)
    else
      match PairRound(testCalc[k], sorted, assumes, others, tests, fuel)
      case None => None
      case Some(s2) => MergeTestCalc(testCalc, k + 1, s2, assumes, others, tests, fuel)
  }

  /** Every block of `list` from the `k`-th on is in `r`. */
  predicate AllIn(list: seq<StmtBlock>, k: nat, r: seq<StmtBlock>) {
    forall m :: k <= m < |list| ==> list[m] in r
  }

  /** `b` is the constraint `testList.find` picks for its own target: the first one. */
  predicate FirstOnTarget(b: StmtBlock, tests: seq<StmtBlock>)
    requires Targeted(tests)
  {
    b.target.Some? && FindByName(tests, TargetName(b)) == Some(b)
  }

  /** The first constraint on the target of `comp`, where there is one, is in `r`. */
  predicate TestIn(comp: StmtBlock, tests: seq<StmtBlock>, r: seq<StmtBlock>)
    requires Targeted(tests)
  {
    comp.target.Some? && FindByName(tests, TargetName(comp)).Some? ==> FindByName(tests, TargetName(comp)).value in r
  }

  lemma AllInStep(list: seq<StmtBlock>, k: nat, r: seq<StmtBlock>)
    requires k < |list| && list[k] in r && AllIn(list, k + 1, r)
    ensures AllIn(list, k, r)
  {
    forall m | k <= m < |list|
      ensures list[m] in r
    {
      if m > k {
        assert k + 1 <= m;
      }
    }
  }

  /**
   * The first loop of mergeBlocks adds every computation some constraint needs,
   * and the first constraint on the target of each.
   */
  lemma {:induction false} MergeTestCalcComplete(testCalc: seq<StmtBlock>, k: nat, sorted: seq<StmtBlock>,
                                                 assumes: seq<StmtBlock>, others: seq<StmtBlock>, tests: seq<StmtBlock>, fuel: nat)
    requires k <= |testCalc|
    requires Targeted(testCalc) && Targeted(assumes) && Targeted(others) && Targeted(tests) && Targeted(sorted)
    requires MergeTestCalc(testCalc, k, sorted, assumes, others, tests, fuel).Some?
    ensures var r := MergeTestCalc(testCalc, k, sorted, assumes, others, tests, fuel).value;
      && AllIn(testCalc, k, r)
      && forall m :: k <= m < |testCalc| ==> TestIn(testCalc[m], tests, r)
    decreases |testCalc| - k
  {
    if k < |testCalc| {
      var s2 := PairRound(testCalc[k], sorted, assumes, others, tests, fuel).value;
      var r := MergeTestCalc(testCalc, k + 1, s2, assumes, others, tests, fuel).value;
      MergeTestCalcComplete(testCalc, k + 1, s2, assumes, others, tests, fuel);
      InPrefix(testCalc[k], s2, r);
      AllInStep(testCalc, k, r);
      var found := FindByName(tests, TargetName(testCalc[k]));
      if found.Some? {
        InPrefix(found.value, s2, r);
      }
      forall m | k <= m < |testCalc|
        ensures TestIn(testCalc[m], tests, r)
      {
        if m > k {
          assert k + 1 <= m;
        }
      }
    }
  }

  /** One round of that loop: the computation, then the first constraint on its target. */
  function PairRound(comp: StmtBlock, sorted: seq<StmtBlock>,
                     assumes: seq<StmtBlock>, others: seq<StmtBlock>, tests: seq<StmtBlock>, fuel: nat)
    : (r: Option<seq<StmtBlock>>)
    requires comp.target.Some? && Targeted(assumes) && Targeted(others) && Targeted(tests) && Targeted(sorted)
    ensures r.Some? ==> Targeted(r.value) && sorted <= r.value && comp in r.value
    ensures r.Some? ==> TestIn(comp, tests, r.value)
    ensures r.Some? ==> forall m :: |sorted| <= m < |r.value| ==>
      r.value[m] == comp || r.value[m] in assumes || r.value[m] in others || FirstOnTarget(r.value[m], tests)
    ensures r.Some? && NoDup(sorted) ==> NoDup(r.value)
  {
    match Resolve(comp, sorted, assumes, others, fuel)
    case None => None
    case Some(s1) =>
      match FindByName(tests, TargetName(comp))
      case None => Some(s1)
      case Some(t) =>
        match Resolve(t, s1, assumes, others, fuel)
        case None => None
        case Some(s2) =>
          InPrefix(comp, s1, s2);
          Some(s2)
  }

  /**
   * The second and third loops of mergeBlocks: resolve each block of `list` from
   * the `k`-th on; with `skipPresent`, only those not yet in the set.
   */
  function ResolveEach(list: seq<StmtBlock>, k: nat, skipPresent: bool, sorted: seq<StmtBlock>,
                       assumes: seq<StmtBlock>, others: seq<StmtBlock>, fuel: nat)
    : (r: Option<seq<StmtBlock>>)
    requires k <= |list|
    requires Targeted(list) && Targeted(assumes) && Targeted(others) && Targeted(sorted)
    ensures r.Some? ==> Targeted(r.value) && sorted <= r.value
    ensures r.Some? && NoDup(sorted) ==> NoDup(r.value)
    ensures r.Some? ==> forall m :: k <= m < |list| ==> list[m] in r.value
    ensures r.Some? ==> forall m :: |sorted| <= m < |r.value| ==>
      r.value[m] in list || r.value[m] in assumes || r.value[m] in others
    decreases |list| - k
  {
    if k == |list| then Some(sorted)
    else if skipPresent && list[k] in sorted then
      var r := ResolveEach(list, k + 1, skipPresent, sorted, assumes, others, fuel);
      if r.None? then r
      else
        InPrefix(list[k], sorted, r.value);
        r
    else
      match Resolve(list[k], sorted, assumes, others, fuel)
      case None => None
      case Some(s1) =>
        var r := ResolveEach(list, k + 1, skipPresent, s1, assumes, others, fuel);
        if r.None? then r
        else
          InPrefix(list[k], s1, r.value);
          r
  }

  /** What mergeBlocks returns: Some(the set's elements in insertion order), or None on stack overflow. */
  function Merge(assumes: seq<StmtBlock>, testCalc: seq<StmtBlock>, others: seq<StmtBlock>, tests: seq<StmtBlock>, fuel: nat)
    : Option<seq<StmtBlock>>
    requires Targeted(testCalc) && Targeted(assumes) && Targeted(others) && Targeted(tests)
  {
    match MergeTestCalc(testCalc, 0, [], assumes, others, tests, fuel)
    case None => None
    case Some(s1) =>
      match ResolveEach(others, 0, false, s1, assumes, others, fuel)
      case None => None
      case Some(s2) => ResolveEach(assumes, 0, true, s2, assumes, others, fuel)
  }

  method MergeBlocks(assumeList: seq<StmtBlock>, testCalc: seq<StmtBlock>, otherCalc: seq<StmtBlock>, testList: seq<StmtBlock>, fuel: nat)
    returns (r: Option<seq<StmtBlock>>)
    requires Targeted(testCalc) && Targeted(assumeList) && Targeted(otherCalc) && Targeted(testList)
    ensures r == Merge(assumeList, testCalc, otherCalc, testList, fuel)
  {
    var sorted := new Scheduler();
    for k := 0 to |testCalc|
      invariant Targeted(sorted.sorted)
      invariant MergeTestCalc(testCalc, 0, [], assumeList, otherCalc, testList, fuel)
             == MergeTestCalc(testCalc, k, sorted.sorted, assumeList, otherCalc, testList, fuel)
    {
      var block := testCalc[k];
      var ok := sorted.ResolveDependencies(block, assumeList, otherCalc, fuel);
      if !ok {
        return None;
      }
      var test := FindByName(testList, TargetName(block));
      if test.Some? {
        ok := sorted.ResolveDependencies(test.value, assumeList, otherCalc, fuel);
        if !ok {
          return None;
        }
      }
    }
    ghost var afterTests := sorted.sorted;
    for k := 0 to |otherCalc|
      invariant Targeted(sorted.sorted)
      invariant ResolveEach(otherCalc, 0, false, afterTests, assumeList, otherCalc, fuel)
             == ResolveEach(otherCalc, k, false, sorted.sorted, assumeList, otherCalc, fuel)
    {
      var ok := sorted.ResolveDependencies(otherCalc[k], assumeList, otherCalc, fuel);
      if !ok {
        return None;
      }
    }
    ghost var afterCalcs := sorted.sorted;
    for k := 0 to |assumeList|
      invariant Targeted(sorted.sorted)
      invariant ResolveEach(assumeList, 0, true, afterCalcs, assumeList, otherCalc, fuel)
             == ResolveEach(assumeList, k, true, sorted.sorted, assumeList, otherCalc, fuel)
    {
      var gen := assumeList[k];
      if gen !in sorted.sorted {
        var ok := sorted.ResolveDependencies(gen, assumeList, otherCalc, fuel);
        if !ok {
          return None;
        }
      }
    }
    return Some(sorted.sorted);
  }

  // ---------------------------------------------------------------------------
  // margeCalcTest (sortStmt.ts:163-225).

  /** The statements of `blocks`, in order (the concatenation of their bodies). */
  function Bodies(blocks: seq<StmtBlock>): (r: seq<StmtNode>)
    ensures blocks != [] ==> blocks[0].body <= r
  {
    if blocks == [] then [] else blocks[0].body + Bodies(blocks[1..])
  }

  lemma {:induction false} BodiesAppend(u: seq<StmtBlock>, v: seq<StmtBlock>)
    ensures Bodies(u + v) == Bodies(u) + Bodies(v)
    decreases |u|
  {
    if u == [] {
      assert u + v == v;
    } else {
      assert (u + v)[1..] == u[1..] + v;
      BodiesAppend(u[1..], v);
    }
  }

  /** The generators of `blocks`, in order. */
  function Generators(blocks: seq<StmtBlock>): (r: seq<StmtBlock>)
    ensures |r| <= |blocks|
  {
    if blocks == [] then [] else Lead(blocks[0]) + Generators(blocks[1..])
  }

  /** `[b]` for a generator, `[]` otherwise. */
  function Lead(b: StmtBlock): seq<StmtBlock> {
    if b.phase == AssumePhase then [b] else []
  }

  lemma {:induction false} GeneratorsAppend(u: seq<StmtBlock>, v: seq<StmtBlock>)
    ensures Generators(u + v) == Generators(u) + Generators(v)
    decreases |u|
  {
    if u == [] {
      assert u + v == v;
    } else {
      var w := u[1..];
      var head := Lead(u[0]);
      assert (u + v)[0] == u[0];
      assert (u + v)[1..] == w + v;
      GeneratorsAppend(w, v);
      assert Generators(u) == head + Generators(w);
      calc {
        Generators(u + v);
        head + Generators(w + v);
        head + (Generators(w) + Generators(v));
        (head + Generators(w)) + Generators(v);
      }
    }
  }

  /** No generator among `blocks`. */
  lemma {:induction false} NoGenerators(blocks: seq<StmtBlock>)
    requires forall k :: 0 <= k < |blocks| ==> blocks[k].phase != AssumePhase
    ensures Generators(blocks) == []
    decreases |blocks|
  {
    if blocks != [] {
      NoGenerators(blocks[1..]);
    }
  }

  /**
   * Where the backward walk from index `i` stops: the first index of the run of
   * computations that ends just before `i`.
   */
  function RunStart(blocks: seq<StmtBlock>, i: nat): (start: nat)
    requires i < |blocks|
    ensures start <= i
    ensures forall k :: start <= k < i ==> blocks[k].phase == CalcPhase
    ensures start > 0 ==> blocks[start - 1].phase != CalcPhase
    decreases i
  {
    if i > 0 && blocks[i - 1].phase == CalcPhase then RunStart(blocks, i - 1) else i
  }

  /**
   * The list after the block at `i` has absorbed the run of computations before
   * it: one block in place of the run and the block, carrying the fields of the
   * run's first block, every statement of the run and the block, and phase `ph`.
   */
  function Turn(blocks: seq<StmtBlock>, i: nat, ph: Phase): (r: seq<StmtBlock>)
    requires i < |blocks|
    ensures |r| == |blocks| - (i - RunStart(blocks, i))
  {
    var start := RunStart(blocks, i);
    blocks[..start] + [blocks[start].(body := Bodies(blocks[start..i + 1]), phase := ph)] + blocks[i + 1..]
  }

  /**
   * One pass of margeCalcTest from index `i`, with the write-back the code
   * evidently intends: the merged block lands on the first index of the run and
   * the scan resumes just after it.
   */
  function MergePass(blocks: seq<StmtBlock>, i: nat, ph: Phase): seq<StmtBlock>
    requires i <= |blocks|
    decreases |blocks| - i
  {
    if i == |blocks| then blocks
    else if blocks[i].phase != ph then MergePass(blocks, i + 1, ph)
    else MergePass(Turn(blocks, i, ph), RunStart(blocks, i) + 1, ph)
  }

  /** The result of margeCalcTest: constraints absorb the computations before them, then runs of computations merge. */
  function CalcTestMerged(blocks: seq<StmtBlock>): seq<StmtBlock> {
    MergePass(MergePass(blocks, 0, TestPhase), 0, CalcPhase)
  }

  /** No block of phase `ph` directly follows a computation. */
  predicate Separated(blocks: seq<StmtBlock>, ph: Phase) {
    forall k :: 0 < k < |blocks| && blocks[k].phase == ph ==> blocks[k - 1].phase != CalcPhase
  }

  /** A list margeCalcTest finishes on: empty, or headed by a generator. */
  predicate Headed(blocks: seq<StmtBlock>) {
    blocks == [] || blocks[0].phase == AssumePhase
  }

  /** Replacing a run of blocks by one block holding the run's statements keeps every statement. */
  lemma BodiesSplice(head: seq<StmtBlock>, run: seq<StmtBlock>, tail: seq<StmtBlock>, m: StmtBlock)
    requires m.body == Bodies(run)
    ensures Bodies(head + [m] + tail) == Bodies(head + run + tail)
  {
    assert Bodies([m]) == m.body by {
      assert [m][1..] == [];
    }
    BodiesAppend(head + [m], tail);
    BodiesAppend(head, [m]);
    BodiesAppend(head + run, tail);
    BodiesAppend(head, run);
  }

  /** Replacing a run without generators by one non-generator keeps the generators. */
  lemma GeneratorsSplice(head: seq<StmtBlock>, run: seq<StmtBlock>, tail: seq<StmtBlock>, m: StmtBlock)
    requires m.phase != AssumePhase && Generators(run) == []
    ensures Generators(head + [m] + tail) == Generators(head + run + tail)
  {
    assert Generators([m]) == [] by {
      assert [m][1..] == [];
    }
    GeneratorsAppend(head + [m], tail);
    GeneratorsAppend(head, [m]);
    GeneratorsAppend(head + run, tail);
    GeneratorsAppend(head, run);
  }

  /** A slice of blocks none of which is a generator. */
  lemma NoGeneratorsIn(blocks: seq<StmtBlock>, a: nat, b: nat)
    requires a <= b <= |blocks|
    requires forall k :: a <= k < b ==> blocks[k].phase != AssumePhase
    ensures Generators(blocks[a..b]) == []
  {
    var run := blocks[a..b];
    forall k | 0 <= k < |run|
      ensures run[k].phase != AssumePhase
    {
      assert run[k] == blocks[a + k];
    }
    NoGenerators(run);
  }

  lemma SplitThree(blocks: seq<StmtBlock>, a: nat, b: nat)
    requires a <= b <= |blocks|
    ensures blocks == blocks[..a] + blocks[a..b] + blocks[b..]
  {
  }

  lemma TurnBodies(blocks: seq<StmtBlock>, i: nat, ph: Phase)
    requires i < |blocks|
    ensures Bodies(Turn(blocks, i, ph)) == Bodies(blocks)
  {
    var start := RunStart(blocks, i);
    SplitThree(blocks, start, i + 1);
    BodiesSplice(blocks[..start], blocks[start..i + 1], blocks[i + 1..],
                 blocks[start].(body := Bodies(blocks[start..i + 1]), phase := ph));
  }

  lemma TurnGenerators(blocks: seq<StmtBlock>, i: nat, ph: Phase)
    requires i < |blocks| && blocks[i].phase == ph && ph != AssumePhase
    ensures Generators(Turn(blocks, i, ph)) == Generators(blocks)
  {
    var start := RunStart(blocks, i);
    SplitThree(blocks, start, i + 1);
    NoGeneratorsIn(blocks, start, i + 1);
    GeneratorsSplice(blocks[..start], blocks[start..i + 1], blocks[i + 1..],
                     blocks[start].(body := Bodies(blocks[start..i + 1]), phase := ph));
  }

  /** Every pass keeps every statement, in order. */
  lemma {:induction false} MergePassBodies(blocks: seq<StmtBlock>, i: nat, ph: Phase)
    requires i <= |blocks|
    ensures Bodies(MergePass(blocks, i, ph)) == Bodies(blocks)
    decreases |blocks| - i
  {
    if i < |blocks| {
      if blocks[i].phase != ph {
        MergePassBodies(blocks, i + 1, ph);
      } else {
        TurnBodies(blocks, i, ph);
        MergePassBodies(Turn(blocks, i, ph), RunStart(blocks, i) + 1, ph);
      }
    }
  }

  /** A pass over constraints or computations leaves the generators as they are, in order. */
  lemma {:induction false} MergePassGenerators(blocks: seq<StmtBlock>, i: nat, ph: Phase)
    requires i <= |blocks| && ph != AssumePhase
    ensures Generators(MergePass(blocks, i, ph)) == Generators(blocks)
    decreases |blocks| - i
  {
    if i < |blocks| {
      if blocks[i].phase != ph {
        MergePassGenerators(blocks, i + 1, ph);
      } else {
        TurnGenerators(blocks, i, ph);
        MergePassGenerators(Turn(blocks, i, ph), RunStart(blocks, i) + 1, ph);
      }
    }
  }

  /** The merged block of a turn follows no computation. */
  lemma TurnSeparates(blocks: seq<StmtBlock>, i: nat, ph: Phase)
    requires i < |blocks| && Separated(blocks[..i], ph)
    ensures Separated(Turn(blocks, i, ph)[..RunStart(blocks, i) + 1], ph)
  {
    var start := RunStart(blocks, i);
    var p := Turn(blocks, i, ph)[..start + 1];
    forall k | 0 < k < |p| && p[k].phase == ph
      ensures p[k - 1].phase != CalcPhase
    {
      if k < start {
        assert p[k] == blocks[..i][k] && p[k - 1] == blocks[..i][k - 1];
      } else {
        assert p[k - 1] == blocks[start - 1];
      }
    }
  }

  /** After a pass over phase `ph`, no block of that phase follows a computation. */
  lemma {:induction false} MergePassSeparates(blocks: seq<StmtBlock>, i: nat, ph: Phase)
    requires i <= |blocks| && Separated(blocks[..i], ph)
    ensures Separated(MergePass(blocks, i, ph), ph)
    decreases |blocks| - i
  {
    if i == |blocks| {
      assert blocks[..i] == blocks;
    } else if blocks[i].phase != ph {
      assert blocks[..i + 1] == blocks[..i] + [blocks[i]];
      MergePassSeparates(blocks, i + 1, ph);
    } else {
      TurnSeparates(blocks, i, ph);
      MergePassSeparates(Turn(blocks, i, ph), RunStart(blocks, i) + 1, ph);
    }
  }

  /** Merging a run of computations puts no computation before a constraint. */
  lemma TurnKeepsTestsSeparated(blocks: seq<StmtBlock>, i: nat)
    requires i < |blocks| && blocks[i].phase == CalcPhase && Separated(blocks, TestPhase)
    ensures Separated(Turn(blocks, i, CalcPhase), TestPhase)
  {
    var start := RunStart(blocks, i);
    var t := Turn(blocks, i, CalcPhase);
    forall k | 0 < k < |t| && t[k].phase == TestPhase
      ensures t[k - 1].phase != CalcPhase
    {
      if k < start {
        assert t[k] == blocks[k] && t[k - 1] == blocks[k - 1];
      } else if k > start + 1 {
        assert t[k] == blocks[k + i - start] && t[k - 1] == blocks[k - 1 + i - start];
      }
    }
  }

  /** The pass over computations keeps constraints apart from computations. */
  lemma {:induction false} CalcPassKeepsTestsSeparated(blocks: seq<StmtBlock>, i: nat)
    requires i <= |blocks| && Separated(blocks, TestPhase)
    ensures Separated(MergePass(blocks, i, CalcPhase), TestPhase)
    decreases |blocks| - i
  {
    if i < |blocks| {
      if blocks[i].phase != CalcPhase {
        CalcPassKeepsTestsSeparated(blocks, i + 1);
      } else {
        TurnKeepsTestsSeparated(blocks, i);
        CalcPassKeepsTestsSeparated(Turn(blocks, i, CalcPhase), RunStart(blocks, i) + 1);
      }
    }
  }

  /** A pass leaves a leading generator in place. */
  lemma {:induction false} MergePassHead(blocks: seq<StmtBlock>, i: nat, ph: Phase)
    requires i <= |blocks| && ph != AssumePhase && blocks != [] && blocks[0].phase == AssumePhase
    ensures var r := MergePass(blocks, i, ph); r != [] && r[0] == blocks[0]
    decreases |blocks| - i
  {
    if i < |blocks| {
      if blocks[i].phase != ph {
        MergePassHead(blocks, i + 1, ph);
      } else {
        var start := RunStart(blocks, i);
        assert start > 0;
        MergePassHead(Turn(blocks, i, ph), start + 1, ph);
      }
    }
  }

  /** margeCalcTest keeps every statement, in order. */
  lemma CalcTestMergedBodies(blocks: seq<StmtBlock>)
    ensures Bodies(CalcTestMerged(blocks)) == Bodies(blocks)
  {
    MergePassBodies(blocks, 0, TestPhase);
    MergePassBodies(MergePass(blocks, 0, TestPhase), 0, CalcPhase);
  }

  /** margeCalcTest leaves the generators as they are, in order. */
  lemma CalcTestMergedGenerators(blocks: seq<StmtBlock>)
    ensures Generators(CalcTestMerged(blocks)) == Generators(blocks)
  {
    MergePassGenerators(blocks, 0, TestPhase);
    MergePassGenerators(MergePass(blocks, 0, TestPhase), 0, CalcPhase);
  }

  /**
   * After margeCalcTest every computation left is followed by a generator or
   * ends the list: the computations before a constraint went into it and runs
   * of computations became one block.
   */
  lemma CalcTestMergedSeparated(blocks: seq<StmtBlock>)
    ensures var r := CalcTestMerged(blocks);
      forall k :: 0 <= k < |r| - 1 && r[k].phase == CalcPhase ==> r[k + 1].phase == AssumePhase
  {
    var s1 := MergePass(blocks, 0, TestPhase);
    var r := MergePass(s1, 0, CalcPhase);
    assert blocks[..0] == [];
    MergePassSeparates(blocks, 0, TestPhase);
    assert s1[..0] == [];
    MergePassSeparates(s1, 0, CalcPhase);
    CalcPassKeepsTestsSeparated(s1, 0);
    forall k | 0 <= k < |r| - 1 && r[k].phase == CalcPhase
      ensures r[k + 1].phase == AssumePhase
    {
      assert r[k + 1].phase != TestPhase && r[k + 1].phase != CalcPhase;
    }
  }

  /** A leading generator stays first. */
  lemma CalcTestMergedHead(blocks: seq<StmtBlock>)
    requires blocks != [] && blocks[0].phase == AssumePhase
    ensures var r := CalcTestMerged(blocks); r != [] && r[0] == blocks[0]
  {
    MergePassHead(blocks, 0, TestPhase);
    MergePassHead(MergePass(blocks, 0, TestPhase), 0, CalcPhase);
  }

  /**
   * One pass of margeCalcTest over the blocks of phase `ph` (the loops of
   * sortStmt.ts:166-193 and 196-223).
   */
  method MergePassLoop(blocks: seq<StmtBlock>, ph: Phase) returns (sorted: seq<StmtBlock>)
    requires ph != AssumePhase && Headed(blocks)
    ensures sorted == MergePass(blocks, 0, ph)
    ensures Headed(sorted)
  {
    sorted := blocks;
    var i: nat := 0;
    while i < |sorted|
      invariant i <= |sorted| && Headed(sorted)
      invariant MergePass(sorted, i, ph) == MergePass(blocks, 0, ph)
      decreases |sorted| - i
    {
      if sorted[i].phase != ph {
        i := i + 1;
        continue;
      }
      sorted, i := MergeAt(sorted, i, ph);
    }
  }

  /**
   * The block of phase `ph` at `i` absorbs the computations met walking back
   * from it, each absorbed block leaving the array (`splice`); the merged block
   * is written where the walk stopped and the scan resumes after it.
   */
  method MergeAt(blocks: seq<StmtBlock>, i: nat, ph: Phase) returns (sorted: seq<StmtBlock>, next: nat)
    requires i < |blocks| && blocks[i].phase == ph && ph != AssumePhase && blocks[0].phase == AssumePhase
    ensures sorted == Turn(blocks, i, ph) && next == RunStart(blocks, i) + 1
    ensures |sorted| - next == |blocks| - i - 1
    ensures sorted[0] == blocks[0]
  {
    sorted := blocks;
    var j := i - 1;
    var merged := sorted[i];
    assert blocks[i..i + 1] == [blocks[i]] && [blocks[i]][1..] == [];
    assert sorted == blocks[..i] + [merged] + blocks[i + 1..];
    while j >= 0
      invariant 0 <= j < i
      invariant RunStart(blocks, i) == RunStart(blocks, j + 1)
      invariant merged == blocks[j + 1].(body := Bodies(blocks[j + 1..i + 1]))
      invariant sorted == blocks[..j + 1] + [merged] + blocks[i + 1..]
      decreases j
    {
      var c := sorted[j];
      assert c == blocks[j];
      if c.phase == CalcPhase {
        Absorb(blocks, i, j, merged);
        var body := c.body + merged.body;
        sorted := sorted[..j + 1] + sorted[j + 2..];
        merged := c.(body := body);
        sorted := sorted[j := merged];
      } else {
        j := j + 1;
        break;
      }
      j := j - 1;
    }
    WriteBack(blocks, i, j, merged, ph);
    sorted := sorted[j := merged.(phase := ph)];
    next := j + 1;
    assert sorted[0] == blocks[..j][0];
  }

  /** Writing over the last element of `u` in `u + v`. */
  lemma ReplaceLast(u: seq<StmtBlock>, v: seq<StmtBlock>, x: StmtBlock)
    requires u != []
    ensures (u + v)[|u| - 1 := x] == u[..|u| - 1] + [x] + v
  {
  }

  /**
   * One step of the backward walk: the computation at `j` absorbs `merged`, the
   * block after it leaves the array, and the absorbing block is written at `j`.
   */
  lemma Absorb(outer: seq<StmtBlock>, i: nat, j: nat, merged: StmtBlock)
    requires j < i < |outer|
    requires merged == outer[j + 1].(body := Bodies(outer[j + 1..i + 1]))
    ensures var sorted := outer[..j + 1] + [merged] + outer[i + 1..];
      var m := outer[j].(body := outer[j].body + merged.body);
      && m == outer[j].(body := Bodies(outer[j..i + 1]))
      && (sorted[..j + 1] + sorted[j + 2..])[j := m] == outer[..j] + [m] + outer[i + 1..]
  {
    var sorted := outer[..j + 1] + [merged] + outer[i + 1..];
    var m := outer[j].(body := outer[j].body + merged.body);
    assert outer[j..i + 1][0] == outer[j] && outer[j..i + 1][1..] == outer[j + 1..i + 1];
    assert sorted[..j + 1] + sorted[j + 2..] == outer[..j + 1] + outer[i + 1..];
    ReplaceLast(outer[..j + 1], outer[i + 1..], m);
    assert outer[..j + 1][..j] == outer[..j];
  }

  /** The write after the walk stops at `j`, the start of the run, is the corrected turn. */
  lemma WriteBack(outer: seq<StmtBlock>, i: nat, j: nat, merged: StmtBlock, ph: Phase)
    requires j <= i < |outer| && RunStart(outer, i) == j
    requires merged == outer[j].(body := Bodies(outer[j..i + 1]))
    ensures (outer[..j] + [merged] + outer[i + 1..])[j := merged.(phase := ph)] == Turn(outer, i, ph)
  {
    ReplaceLast(outer[..j] + [merged], outer[i + 1..], merged.(phase := ph));
    assert (outer[..j] + [merged])[..j] == outer[..j];
  }

  /**
   * margeCalcTest on a list headed by a generator (see CalcTestMerged); on any
   * other non-empty list the code as written does not return (StallAtHead).
   */
  method MergeCalcTest(blocks: seq<StmtBlock>) returns (sorted: seq<StmtBlock>)
    requires Headed(blocks)
    ensures sorted == CalcTestMerged(blocks)
  {
    sorted := MergePassLoop(blocks, TestPhase);
    sorted := MergePassLoop(sorted, CalcPhase);
  }

  /**
   * One round of the outer loop of a margeCalcTest pass as the code is written,
   * from a block of phase `ph` at `i`: the new list and the next `i`. When the
   * backward walk runs through index 0, `j` ends at -1; the write
   * `sorted[-1] = ...` sets a property of the array, not an element, so the
   * merged block keeps the phase of the computation it was copied from, and the
   * scan restarts at 0.
   */
  function RoundAsWritten(blocks: seq<StmtBlock>, i: nat, ph: Phase): (seq<StmtBlock>, nat)
    requires i < |blocks| && blocks[i].phase == ph
  {
    var start := RunStart(blocks, i);
    if start > 0 then (Turn(blocks, i, ph), start + 1)
    else ([blocks[0].(body := Bodies(blocks[..i + 1]))] + blocks[i + 1..], 0)
  }

  /**
   * A pass that meets a block of its own phase at index 0 never ends: the round
   * from index 0 gives back the same list and index 0 again.
   */
  lemma StallAtHead(blocks: seq<StmtBlock>, ph: Phase)
    requires blocks != [] && blocks[0].phase == ph
    ensures RoundAsWritten(blocks, 0, ph) == (blocks, 0)
  {
    assert blocks[..1] == [blocks[0]] && [blocks[0]][1..] == [];
    assert Bodies(blocks[..1]) == blocks[0].body;
    assert blocks[0].(body := blocks[0].body) == blocks[0];
    assert [blocks[0]] + blocks[1..] == blocks;
  }

  /**
   * A computation followed by its constraint, with no generator before them:
   * the first pass merges the two into one block that keeps the computation's
   * phase, and the second pass then stalls on it.
   */
  lemma ComputationFirstStalls(c: StmtBlock, t: StmtBlock)
    requires c.phase == CalcPhase && t.phase == TestPhase
    ensures var merged := [c.(body := c.body + t.body)];
      && RoundAsWritten([c, t], 1, TestPhase) == (merged, 0)
      && RoundAsWritten(merged, 0, CalcPhase) == (merged, 0)
  {
    var blocks := [c, t];
    assert blocks[..2] == blocks && blocks[1..] == [t] && blocks[2..] == [];
    assert Bodies([t]) == t.body by {
      assert [t][1..] == [];
    }
    assert Bodies(blocks) == c.body + t.body;
    StallAtHead([c.(body := c.body + t.body)], CalcPhase);
  }

  /** A leading computation survives every round of the first pass, so the second pass stalls at index 0. */
  lemma HeadComputationKept(blocks: seq<StmtBlock>, i: nat)
    requires i < |blocks| && blocks[i].phase == TestPhase && blocks[0].phase == CalcPhase
    ensures var next := RoundAsWritten(blocks, i, TestPhase).0; next != [] && next[0].phase == CalcPhase
  {
    var start := RunStart(blocks, i);
    if start > 0 {
      assert Turn(blocks, i, TestPhase)[0] == blocks[..start][0];
    }
  }

  /** Behind a leading generator the rounds as written are the corrected turns. */
  lemma RoundAsWrittenAgrees(blocks: seq<StmtBlock>, i: nat, ph: Phase)
    requires i < |blocks| && blocks[i].phase == ph && ph != AssumePhase && blocks[0].phase == AssumePhase
    ensures RoundAsWritten(blocks, i, ph) == (Turn(blocks, i, ph), RunStart(blocks, i) + 1)
  {
  }

  // ---------------------------------------------------------------------------
  // Facts about mergeBlocks.

  lemma InPrefix(b: StmtBlock, s: seq<StmtBlock>, t: seq<StmtBlock>)
    requires b in s && s <= t
    ensures b in t
  {
    var i :| 0 <= i < |s| && s[i] == b;
    assert t[i] == b;
  }

  /**
   * mergeBlocks returns no block twice; every generator, every computation
   * paired with a constraint, the first constraint on the target of each such
   * computation and every other computation is in it; and every block in it is
   * one of those.
   */
  lemma MergeFacts(assumes: seq<StmtBlock>, testCalc: seq<StmtBlock>, others: seq<StmtBlock>, tests: seq<StmtBlock>, fuel: nat)
    requires Targeted(testCalc) && Targeted(assumes) && Targeted(others) && Targeted(tests)
    requires Merge(assumes, testCalc, others, tests, fuel).Some?
    ensures var r := Merge(assumes, testCalc, others, tests, fuel).value;
      && NoDup(r)
      && (forall b :: b in assumes ==> b in r)
      && (forall b :: b in testCalc ==> b in r)
      && (forall b :: b in others ==> b in r)
      && (forall c :: c in testCalc ==> TestIn(c, tests, r))
      && (forall m :: 0 <= m < |r| ==>
            r[m] in assumes || r[m] in testCalc || r[m] in others || FirstOnTarget(r[m], tests))
  {
    var s1 := MergeTestCalc(testCalc, 0, [], assumes, others, tests, fuel).value;
    var s2 := ResolveEach(others, 0, false, s1, assumes, others, fuel).value;
    var r := ResolveEach(assumes, 0, true, s2, assumes, others, fuel).value;
    MergeTestCalcComplete(testCalc, 0, [], assumes, others, tests, fuel);
    forall b | b in testCalc
      ensures b in r
    {
      InPrefix(b, s1, s2);
      InPrefix(b, s2, r);
    }
    forall b | b in others
      ensures b in r
    {
      InPrefix(b, s2, r);
    }
    forall c | c in testCalc
      ensures TestIn(c, tests, r)
    {
      var k :| 0 <= k < |testCalc| && testCalc[k] == c;
      var found := FindByName(tests, TargetName(c));
      if found.Some? {
        InPrefix(found.value, s1, s2);
        InPrefix(found.value, s2, r);
      }
    }
  }

  /**
   * A constraint on a target some earlier constraint already has is never
   * scheduled: `testList.find` only ever picks the first.
   */
  lemma LaterConstraintDropped(assumes: seq<StmtBlock>, testCalc: seq<StmtBlock>, others: seq<StmtBlock>, tests: seq<StmtBlock>,
                               fuel: nat, t: StmtBlock)
    requires Targeted(testCalc) && Targeted(assumes) && Targeted(others) && Targeted(tests)
    requires Merge(assumes, testCalc, others, tests, fuel).Some?
    requires forall b :: b in assumes + testCalc + others ==> b.phase != TestPhase
    requires t in tests && t.phase == TestPhase && !FirstOnTarget(t, tests)
    ensures t !in Merge(assumes, testCalc, others, tests, fuel).value
  {
    MergeFacts(assumes, testCalc, others, tests, fuel);
  }

  lemma PairRoundMoreFuel(comp: StmtBlock, sorted: seq<StmtBlock>, assumes: seq<StmtBlock>, others: seq<StmtBlock>,
                          tests: seq<StmtBlock>, f: nat, g: nat)
    requires comp.target.Some? && Targeted(assumes) && Targeted(others) && Targeted(tests) && Targeted(sorted)
    requires f <= g && PairRound(comp, sorted, assumes, others, tests, f).Some?
    ensures PairRound(comp, sorted, assumes, others, tests, g) == PairRound(comp, sorted, assumes, others, tests, f)
  {
    ResolveMoreFuel(comp, sorted, assumes, others, f, g);
    var s1 := Resolve(comp, sorted, assumes, others, f).value;
    var found := FindByName(tests, TargetName(comp));
    if found.Some? {
      ResolveMoreFuel(found.value, s1, assumes, others, f, g);
    }
  }

  lemma {:induction false} MergeTestCalcMoreFuel(testCalc: seq<StmtBlock>, k: nat, sorted: seq<StmtBlock>,
                                                 assumes: seq<StmtBlock>, others: seq<StmtBlock>, tests: seq<StmtBlock>, f: nat, g: nat)
    requires k <= |testCalc|
    requires Targeted(testCalc) && Targeted(assumes) && Targeted(others) && Targeted(tests) && Targeted(sorted)
    requires f <= g && MergeTestCalc(testCalc, k, sorted, assumes, others, tests, f).Some?
    ensures MergeTestCalc(testCalc, k, sorted, assumes, others, tests, g) == MergeTestCalc(testCalc, k, sorted, assumes, others, tests, f)
    decreases |testCalc| - k
  {
    if k < |testCalc| {
      PairRoundMoreFuel(testCalc[k], sorted, assumes, others, tests, f, g);
      var s2 := PairRound(testCalc[k], sorted, assumes, others, tests, f).value;
      MergeTestCalcMoreFuel(testCalc, k + 1, s2, assumes, others, tests, f, g);
    }
  }

  lemma {:induction false} ResolveEachMoreFuel(list: seq<StmtBlock>, k: nat, skipPresent: bool, sorted: seq<StmtBlock>,
                                               assumes: seq<StmtBlock>, others: seq<StmtBlock>, f: nat, g: nat)
    requires k <= |list|
    requires Targeted(list) && Targeted(assumes) && Targeted(others) && Targeted(sorted)
    requires f <= g && ResolveEach(list, k, skipPresent, sorted, assumes, others, f).Some?
    ensures ResolveEach(list, k, skipPresent, sorted, assumes, others, g) == ResolveEach(list, k, skipPresent, sorted, assumes, others, f)
    decreases |list| - k, 1
  {
    if k < |list| {
      if skipPresent && list[k] in sorted {
        ResolveEachSkipMoreFuel(list, k, sorted, assumes, others, f, g);
      } else {
        ResolveEachStepMoreFuel(list, k, skipPresent, sorted, assumes, others, f, g);
      }
    }
  }

  /** A block already in the set is passed over under any bound. */
  lemma {:induction false} ResolveEachSkipMoreFuel(list: seq<StmtBlock>, k: nat, sorted: seq<StmtBlock>,
                                                   assumes: seq<StmtBlock>, others: seq<StmtBlock>, f: nat, g: nat)
    requires k < |list| && list[k] in sorted
    requires Targeted(list) && Targeted(assumes) && Targeted(others) && Targeted(sorted)
    requires f <= g && ResolveEach(list, k, true, sorted, assumes, others, f).Some?
    ensures ResolveEach(list, k, true, sorted, assumes, others, g) == ResolveEach(list, k, true, sorted, assumes, others, f)
    decreases |list| - k, 0
  {
    ResolveEachMoreFuel(list, k + 1, true, sorted, assumes, others, f, g);
  }

  /** A block resolved in its turn is resolved alike under any larger bound. */
  lemma {:induction false} ResolveEachStepMoreFuel(list: seq<StmtBlock>, k: nat, skipPresent: bool, sorted: seq<StmtBlock>,
                                                   assumes: seq<StmtBlock>, others: seq<StmtBlock>, f: nat, g: nat)
    requires k < |list| && !(skipPresent && list[k] in sorted)
    requires Targeted(list) && Targeted(assumes) && Targeted(others) && Targeted(sorted)
    requires f <= g && ResolveEach(list, k, skipPresent, sorted, assumes, others, f).Some?
    ensures ResolveEach(list, k, skipPresent, sorted, assumes, others, g) == ResolveEach(list, k, skipPresent, sorted, assumes, others, f)
    decreases |list| - k, 0
  {
    ResolveMoreFuel(list[k], sorted, assumes, others, f, g);
    var s1 := Resolve(list[k], sorted, assumes, others, f).value;
    ResolveEachMoreFuel(list, k + 1, skipPresent, s1, assumes, others, f, g);
  }

  /** mergeBlocks gives the same list under every depth bound at which it does not overflow. */
  lemma MergeMoreFuel(assumes: seq<StmtBlock>, testCalc: seq<StmtBlock>, others: seq<StmtBlock>, tests: seq<StmtBlock>, f: nat, g: nat)
    requires Targeted(testCalc) && Targeted(assumes) && Targeted(others) && Targeted(tests)
    requires f <= g && Merge(assumes, testCalc, others, tests, f).Some?
    ensures Merge(assumes, testCalc, others, tests, g) == Merge(assumes, testCalc, others, tests, f)
  {
    MergeTestCalcMoreFuel(testCalc, 0, [], assumes, others, tests, f, g);
    var s1 := MergeTestCalc(testCalc, 0, [], assumes, others, tests, f).value;
    ResolveEachMoreFuel(others, 0, false, s1, assumes, others, f, g);
    var s2 := ResolveEach(others, 0, false, s1, assumes, others, f).value;
    ResolveEachMoreFuel(assumes, 0, true, s2, assumes, others, f, g);
  }

  // ---------------------------------------------------------------------------
  // sortStmt (sortStmt.ts:228-241).

  /**
   * `test.map((t) => calc.find((c) => c.target.name === t.target.name))`, or
   * None when some constraint has no computation of its target, an `undefined`
   * entry that resolveDependencies then fails on.
   */
  function PairedCalcs(calcs: seq<StmtBlock>, tests: seq<StmtBlock>): (r: Option<seq<StmtBlock>>)
    requires Targeted(calcs) && Targeted(tests)
    ensures r.Some? ==> |r.value| == |tests| && Targeted(r.value)
    ensures r.Some? ==> forall k :: 0 <= k < |tests| ==> Some(r.value[k]) == FindByName(calcs, TargetName(tests[k]))
    ensures r.None? <==> exists k :: 0 <= k < |tests| && FindByName(calcs, TargetName(tests[k])).None?
    decreases |tests|
  {
    if tests == [] then Some([])
    else
      match FindByName(calcs, TargetName(tests[0]))
      case None => None
      case Some(c) =>
        match PairedCalcs(calcs, tests[1..])
        case None => None
        case Some(rest) => Some([c] + rest)
  }

  /** `calc.filter((c) => !testCalc.includes(c))`. */
  function Excluding(list: seq<StmtBlock>, drop: seq<StmtBlock>): (r: seq<StmtBlock>)
    requires Targeted(list)
    ensures Targeted(r)
    ensures forall b :: b in r <==> b in list && b !in drop
    decreases |list|
  {
    if list == [] then []
    else (if list[0] in drop then [] else [list[0]]) + Excluding(list[1..], drop)
  }

  lemma {:induction false} ClassifiedTargeted(stmts: seq<StmtNode>)
    requires Classify(stmts).Some?
    ensures Targeted(Classify(stmts).value.assumes) && Targeted(Classify(stmts).value.calcs)
  {
    CategorisedSound(stmts);
  }

  /**
   * What sortStmt does with the statements of a block: Throws where the code
   * throws (no statement to schedule, a constraint without target or without a
   * computation of it, a dependency chain deeper than `fuel`), Diverges where
   * margeCalcTest never returns, and otherwise the merged schedule. A missing
   * target is read by the callback of `calc.find`, which never runs when there
   * is no computation; then the `undefined` pairing fails in resolveDependencies.
   */
  function Schedule(predicates: seq<StmtNode>, fuel: nat): Outcome<seq<StmtBlock>> {
    match Classify(predicates)
    case None => Throws("No valid statements to process.")
    case Some(c) =>
      ClassifiedTargeted(predicates);
      if !Targeted(c.tests) then
        if c.calcs != [] then Throws("Cannot read properties of undefined (reading 'name')")
        else Throws("Cannot read properties of undefined (reading 'operand')")
      else
        match PairedCalcs(c.calcs, c.tests)
        case None => Throws("Cannot read properties of undefined (reading 'operand')")
        case Some(testCalc) =>
          match Merge(c.assumes, testCalc, Excluding(c.calcs, testCalc), c.tests, fuel)
          case None => Throws("Maximum call stack size exceeded")
          case Some(sorted) => if Headed(sorted) then Returns(CalcTestMerged(sorted)) else Diverges
  }

  method SortStatements(predicates: seq<StmtNode>, fuel: nat) returns (r: Outcome<seq<StmtBlock>>)
    ensures r == Schedule(predicates, fuel)
  {
    var stmtList := ClassifyStatements(predicates);
    if stmtList.None? {
      return Throws("No valid statements to process.");
    }
    var c := stmtList.value;
    ClassifiedTargeted(predicates);
    if !Targeted(c.tests) {
      if c.calcs != [] {
        return Throws("Cannot read properties of undefined (reading 'name')");
      }
      return Throws("Cannot read properties of undefined (reading 'operand')");
    }
    var testCalc := PairedCalcs(c.calcs, c.tests);
    if testCalc.None? {
      return Throws("Cannot read properties of undefined (reading 'operand')");
    }
    var otherCalc := Excluding(c.calcs, testCalc.value);
    var sorted := MergeBlocks(c.assumes, testCalc.value, otherCalc, c.tests, fuel);
    if sorted.None? {
      return Throws("Maximum call stack size exceeded");
    }
    if !Headed(sorted.value) {
      return Diverges;
    }
    var merged := MergeCalcTest(sorted.value);
    return Returns(merged);
  }

  /**
   * The depth bound only decides whether the stack overflows: every other
   * outcome of sortStmt is the same under any larger bound.
   */
  lemma ScheduleMoreFuel(predicates: seq<StmtNode>, f: nat, g: nat)
    requires f <= g && Schedule(predicates, f) != Throws("Maximum call stack size exceeded")
    ensures Schedule(predicates, g) == Schedule(predicates, f)
  {
    var c := Classify(predicates);
    if c.Some? {
      ClassifiedTargeted(predicates);
      if Targeted(c.value.tests) && PairedCalcs(c.value.calcs, c.value.tests).Some? {
        var testCalc := PairedCalcs(c.value.calcs, c.value.tests).value;
        MergeMoreFuel(c.value.assumes, testCalc, Excluding(c.value.calcs, testCalc), c.value.tests, f, g);
      }
    }
  }

  lemma {:induction false} InGenerators(b: StmtBlock, blocks: seq<StmtBlock>)
    requires b in blocks && b.phase == AssumePhase
    ensures b in Generators(blocks)
    decreases |blocks|
  {
    if blocks[0] != b {
      InGenerators(b, blocks[1..]);
    }
  }

  lemma {:induction false} InBodies(b: StmtBlock, blocks: seq<StmtBlock>)
    requires b in blocks
    ensures forall x :: x in b.body ==> x in Bodies(blocks)
    decreases |blocks|
  {
    if blocks[0] != b {
      InBodies(b, blocks[1..]);
    }
  }

  /**
   * A schedule sortStmt returns keeps every generator of the block as it is,
   * keeps the statement of every computation and of the first constraint on
   * each target, has no computation before a constraint or another
   * computation, and starts with a generator.
   */
  lemma ScheduleFacts(predicates: seq<StmtNode>, fuel: nat)
    requires Schedule(predicates, fuel).Returns?
    ensures var r := Schedule(predicates, fuel).value;
      var c := Classify(predicates).value;
      && (forall b :: b in c.assumes ==> b in Generators(r))
      && (forall b, x :: b in c.calcs && x in b.body ==> x in Bodies(r))
      && Targeted(c.tests)
      && (forall t, x :: t in c.tests && FirstOnTarget(t, c.tests) && x in t.body ==> x in Bodies(r))
      && (forall k :: 0 <= k < |r| - 1 && r[k].phase == CalcPhase ==> r[k + 1].phase == AssumePhase)
      && Headed(r)
  {
    var c := Classify(predicates).value;
    ClassifiedTargeted(predicates);
    CategorisedSound(predicates);
    var testCalc := PairedCalcs(c.calcs, c.tests).value;
    var others := Excluding(c.calcs, testCalc);
    var sorted := Merge(c.assumes, testCalc, others, c.tests, fuel).value;
    var r := CalcTestMerged(sorted);
    MergeFacts(c.assumes, testCalc, others, c.tests, fuel);
    CalcTestMergedBodies(sorted);
    CalcTestMergedGenerators(sorted);
    CalcTestMergedSeparated(sorted);
    if sorted != [] {
      CalcTestMergedHead(sorted);
    }
    forall b | b in c.assumes
      ensures b in Generators(r)
    {
      var k :| 0 <= k < |c.assumes| && c.assumes[k] == b;
      InGenerators(b, sorted);
    }
    forall b, x | b in c.calcs && x in b.body
      ensures x in Bodies(r)
    {
      InBodies(b, sorted);
    }
    PairedConstraintsMerged(c.calcs, c.tests, c.assumes, fuel);
    forall t, x | t in c.tests && FirstOnTarget(t, c.tests) && x in t.body
      ensures x in Bodies(r)
    {
      InBodies(t, sorted);
    }
  }

  /** Once every constraint is paired, mergeBlocks schedules the first constraint on each target. */
  lemma PairedConstraintsMerged(calcs: seq<StmtBlock>, tests: seq<StmtBlock>, assumes: seq<StmtBlock>, fuel: nat)
    requires Targeted(calcs) && Targeted(tests) && Targeted(assumes) && PairedCalcs(calcs, tests).Some?
    requires var testCalc := PairedCalcs(calcs, tests).value;
      Merge(assumes, testCalc, Excluding(calcs, testCalc), tests, fuel).Some?
    ensures var testCalc := PairedCalcs(calcs, tests).value;
      forall t :: t in tests && FirstOnTarget(t, tests) ==>
        t in Merge(assumes, testCalc, Excluding(calcs, testCalc), tests, fuel).value
  {
    var testCalc := PairedCalcs(calcs, tests).value;
    MergeFacts(assumes, testCalc, Excluding(calcs, testCalc), tests, fuel);
    forall t | t in tests && FirstOnTarget(t, tests)
      ensures t in Merge(assumes, testCalc, Excluding(calcs, testCalc), tests, fuel).value
    {
      var k :| 0 <= k < |tests| && tests[k] == t;
      assert TargetName(testCalc[k]) == TargetName(t);
      assert TestIn(testCalc[k], tests, Merge(assumes, testCalc, Excluding(calcs, testCalc), tests, fuel).value);
    }
  }
}
