/**
 * The lowering pass of src/lib/compiler/converter.ts: the syntax tree of the
 * parser becomes the class tree the code generator prints. Every variable
 * reference is marked with whether a parameter variable of that name was
 * visited before it, generator assignments become `return` nodes, `test`
 * becomes `if`, and the scheduled statement blocks and the method blocks of a
 * module are numbered "1".."n".
 *
 * The visitor cases that only rebuild a node are functions of the parameter
 * list seen so far; the one piece of state, the list `params` that the PARAM
 * case pushes into and that is never reset, is the field of class ASTConverter.
 *
 * A thrown `Error` or `TypeError` is `Throw`/`Throws` carrying its message. The
 * scheduler's call-stack bound is the `fuel` it is given.
 */
module Converter {
  import opened Base
  import Syntax
  import Lowered
  import SortStmt

  // ---------------------------------------------------------------------------
  // Types (converter.ts:11-44).

  /** The converted kind of a declared type kind. */
  function NewKind(k: Syntax.TypeKind): (n: Lowered.NewTypeKind)
    ensures n == Lowered.NumberType <==> k == Syntax.Integer || k == Syntax.Real
    ensures n == Lowered.BooleanType <==> k == Syntax.BoolType
    ensures n == Lowered.StringType <==> k == Syntax.AtomType
    ensures n == Lowered.ArrayType <==> k == Syntax.ListType
    ensures n == Lowered.ObjectType <==> k == Syntax.VectorType
    ensures n == Lowered.DummyNewType <==> k == Syntax.DummyType
  {
    match k
    case Integer => Lowered.NumberType
    case Real => Lowered.NumberType
    case BoolType => Lowered.BooleanType
    case AtomType => Lowered.StringType
    case ListType => Lowered.ArrayType
    case VectorType => Lowered.ObjectType
    case DummyType => Lowered.DummyNewType
  }

  predicate Structured(k: Syntax.TypeKind) {
    k == Syntax.ListType || k == Syntax.VectorType
  }

  /**
   * `convertType`: list and vector types keep their members, converted one by
   * one; every other type loses them.
   */
  function ConvertType(t: Syntax.Type): (n: Lowered.NewType)
    ensures n.kind == NewKind(t.kind) && n.token == t.token
    ensures |n.members| == if Structured(t.kind) then |t.members| else 0
    ensures Structured(t.kind) ==>
      forall k :: 0 <= k < |t.members| ==> n.members[k] == ConvertType(t.members[k])
    decreases t
  {
    var members := if Structured(t.kind) then ConvertTypes(t.members) else [];
    Lowered.NewType(NewKind(t.kind), t.token, members)
  }

  function ConvertTypes(ts: seq<Syntax.Type>): (ns: seq<Lowered.NewType>)
    ensures |ns| == |ts|
    ensures forall k :: 0 <= k < |ts| ==> ns[k] == ConvertType(ts[k])
    decreases ts, 0
  {
    seq(|ts|, k requires 0 <= k < |ts| => ConvertType(ts[k]))
  }

  /** The number of type nodes in a declared type. */
  function TypeSize(t: Syntax.Type): nat
    decreases t
  {
    1 + TypeSizes(t.members)
  }

  function TypeSizes(ts: seq<Syntax.Type>): nat
    decreases ts
  {
    if ts == [] then 0 else TypeSizes(ts[..|ts| - 1]) + TypeSize(ts[|ts| - 1])
  }

  function NewTypeSize(t: Lowered.NewType): nat
    decreases t
  {
    1 + NewTypeSizes(t.members)
  }

  function NewTypeSizes(ts: seq<Lowered.NewType>): nat
    decreases ts
  {
    if ts == [] then 0 else NewTypeSizes(ts[..|ts| - 1]) + NewTypeSize(ts[|ts| - 1])
  }

  /** Only member lists are dropped: a type without members inside lists and vectors keeps its size. */
  lemma {:induction false} ConvertTypeSize(t: Syntax.Type)
    ensures NewTypeSize(ConvertType(t)) <= TypeSize(t)
    ensures (Structured(t.kind) || t.members == []) && AllStructured(t.members) ==>
      NewTypeSize(ConvertType(t)) == TypeSize(t)
    decreases t, 1
  {
    var n := ConvertType(t);
    if Structured(t.kind) {
      ConvertTypesSize(t.members);
    } else {
      assert n.members == [];
      assert TypeSizes(t.members) >= 0;
    }
  }

  /** Every type in the list, and every type below it, either is structured or has no members. */
  predicate AllStructured(ts: seq<Syntax.Type>)
    decreases ts
  {
    forall k :: 0 <= k < |ts| ==>
      (Structured(ts[k].kind) || ts[k].members == []) && AllStructured(ts[k].members)
  }

  lemma {:induction false} ConvertTypesSize(ts: seq<Syntax.Type>)
    ensures NewTypeSizes(ConvertTypes(ts)) <= TypeSizes(ts)
    ensures AllStructured(ts) ==> NewTypeSizes(ConvertTypes(ts)) == TypeSizes(ts)
    decreases ts, 0
  {
    if ts != [] {
      var front := ts[..|ts| - 1];
      var ns := ConvertTypes(ts);
      assert ConvertTypes(front) == ns[..|ns| - 1];
      ConvertTypesSize(front);
      ConvertTypeSize(ts[|ts| - 1]);
      if AllStructured(ts) {
        assert AllStructured(front) by {
          forall k | 0 <= k < |front|
            ensures (Structured(front[k].kind) || front[k].members == []) && AllStructured(front[k].members)
          {
            assert front[k] == ts[k];
          }
        }
      }
    }
  }

  // ---------------------------------------------------------------------------
  // Expressions (converter.ts:46-182).

  /**
   * `this.params.some(p => p.name === name)`. A member that was not a variable
   * was pushed with an undefined name, which equals no name.
   */
  predicate InParams(params: seq<Lowered.Field>, name: string) {
    exists k :: 0 <= k < |params| && params[k].FieldVar? && params[k].v.name == name
  }

  /** The token a converted expression carries. */
  function TokenOf(e: Lowered.Expr): Syntax.Token {
    match e
    case Num(t) => t
    case Var(v) => v.token
    case ListLit(t, _) => t
    case ObjectLit(t, _) => t
    case Binary(t, _, _, _) => t
    case Unary(t, _, _) => t
    case Sqrt(t, _) => t
  }

  /** The VAR case: the variable marked with its parameter status and its converted type. */
  function ConvertVar(params: seq<Lowered.Field>, v: Syntax.VarNode): (r: Lowered.VarNode)
    ensures r.isInParam <==> InParams(params, v.name)
    ensures r.name == v.name && r.isInput == v.isInput && r.token == v.token
    ensures r.valueType.kind == NewKind(v.valueType.kind)
  {
    Lowered.VarNode(v.token, InParams(params, v.name), v.isInput, v.name, ConvertType(v.valueType))
  }

  /**
   * What lowering keeps of an expression: its operator tree, its tokens and the
   * names of its variables. A vector keeps, per member, only the name of a member
   * that is a variable. `None` for a tree holding a node kind the converter has
   * no case for.
   */
  datatype Shape =
    | NumShape(token: Syntax.Token)
    | VarShape(token: Syntax.Token, name: string, isInput: bool)
    | ListShape(token: Syntax.Token, elems: seq<Shape>)
    | ObjectShape(token: Syntax.Token, members: seq<Option<string>>)
    | BinaryShape(token: Syntax.Token, op: Syntax.BinOp, lhs: Shape, rhs: Shape)
    | UnaryShape(token: Syntax.Token, uop: Syntax.UnOp, operand: Shape)
    | SqrtShape(token: Syntax.Token, arg: Shape)

  function SyntaxShape(e: Syntax.Expr): Option<Shape>
    decreases e, 1
  {
    match e
    case Num(t) => Some(NumShape(t))
    case Var(v) => Some(VarShape(v.token, v.name, v.isInput))
    case ListExpr(t, elems) =>
      (match SyntaxShapes(elems)
       case Some(ss) => Some(ListShape(t, ss))
       case None => None)
    case Vector(t, members) =>
      (match MemberNames(members)
       case Some(ns) => Some(ObjectShape(t, ns))
       case None => None)
    case Binary(t, op, l, r) =>
      (match (SyntaxShape(l), SyntaxShape(r))
       case (Some(a), Some(b)) => Some(BinaryShape(t, op, a, b))
       case _ => None)
    case Unary(t, op, x) =>
      (match SyntaxShape(x)
       case Some(a) => Some(UnaryShape(t, op, a))
       case None => None)
    case Sqrt(t, x) =>
      (match SyntaxShape(x)
       case Some(a) => Some(SqrtShape(t, a))
       case None => None)
    case Str(_) => None
    case AtomExpr(_) => None
    case Exp(_, _) => None
    case Dummy(_) => None
  }

  function SyntaxShapes(es: seq<Syntax.Expr>): Option<seq<Shape>>
    decreases es, 0
  {
    if es == [] then Some([])
    else
      match (SyntaxShapes(es[..|es| - 1]), SyntaxShape(es[|es| - 1]))
      case (Some(ss), Some(s)) => Some(ss + [s])
      case _ => None
  }

  function MemberNames(ms: seq<Syntax.Member>): Option<seq<Option<string>>>
    decreases ms, 1
  {
    if ms == [] then Some([])
    else
      match (MemberNames(ms[..|ms| - 1]), MemberName(ms[|ms| - 1]))
      case (Some(ns), Some(n)) => Some(ns + [n])
      case _ => None
  }

  /** A member keeps the name of a variable value, and nothing of any other value. */
  function MemberName(m: Syntax.Member): Option<Option<string>>
    decreases m, 0
  {
    match SyntaxShape(m.value)
    case None => None
    case Some(_) => Some(if m.value.Var? then Some(m.value.v.name) else None)
  }

  /** The name a converted member keeps: none when it was not a variable. */
  function KeptName(f: Lowered.Field): Option<string> {
    if f.FieldVar? then Some(f.v.name) else None
  }

  function LoweredShape(e: Lowered.Expr): Shape
    decreases e
  {
    match e
    case Num(t) => NumShape(t)
    case Var(v) => VarShape(v.token, v.name, v.isInput)
    case ListLit(t, elems) => ListShape(t, seq(|elems|, k requires 0 <= k < |elems| => LoweredShape(elems[k])))
    case ObjectLit(t, members) =>
      ObjectShape(t, seq(|members|, k requires 0 <= k < |members| => KeptName(members[k])))
    case Binary(t, op, l, r) => BinaryShape(t, op, LoweredShape(l), LoweredShape(r))
    case Unary(t, op, x) => UnaryShape(t, op, LoweredShape(x))
    case Sqrt(t, x) => SqrtShape(t, LoweredShape(x))
  }

  /** Every variable of the converted tree, members included, carries its parameter status for `params`. */
  predicate Marked(params: seq<Lowered.Field>, e: Lowered.Expr)
    decreases e
  {
    match e
    case Num(_) => true
    case Var(v) => v.isInParam == InParams(params, v.name)
    case ListLit(_, elems) => forall k :: 0 <= k < |elems| ==> Marked(params, elems[k])
    case ObjectLit(_, members) =>
      forall k :: 0 <= k < |members| && members[k].FieldVar? ==>
        members[k].v.isInParam == InParams(params, members[k].v.name)
    case Binary(_, _, l, r) => Marked(params, l) && Marked(params, r)
    case Unary(_, _, x) => Marked(params, x)
    case Sqrt(_, x) => Marked(params, x)
  }

  /** The message `visitNode` throws for a kind that has no case. */
  function Unknown(kind: string): string {
    "Unknown node type: " + kind
  }

  /**
   * `exp(...)` nodes carry an undefined kind, and the case filed under the
   * undefined key is CASE's, which maps over the missing `body`.
   */
  const ReadingMap := "Cannot read properties of undefined (reading 'map')"

  /**
   * Converting an expression: it succeeds exactly when every node has a case,
   * and then it keeps the tree's shape and marks every variable.
   */
  function ConvertExpr(params: seq<Lowered.Field>, e: Syntax.Expr): (r: Result<Lowered.Expr>)
    ensures r.Ok? <==> SyntaxShape(e).Some?
    ensures r.Ok? ==> LoweredShape(r.value) == SyntaxShape(e).value && Marked(params, r.value)
    ensures r.Ok? ==> TokenOf(r.value) == SortStmt.TokenOf(e)
    ensures e.Var? ==> r == Ok(Lowered.Var(ConvertVar(params, e.v)))
    ensures e.Str? ==> r == Throw(Unknown("string"))
    ensures e.AtomExpr? ==> r == Throw(Unknown("atom"))
    ensures e.Dummy? ==> r == Throw(Unknown("dummy"))
    decreases e, 1
  {
    match e
    case Num(t) => Ok(Lowered.Num(t))
    case Var(v) => Ok(Lowered.Var(ConvertVar(params, v)))
    case ListExpr(t, elems) =>
      (match ConvertExprs(params, elems)
       case Ok(es) => Ok(Lowered.ListLit(t, es))
       case Throw(msg) => Throw(msg))
    case Vector(t, members) =>
      (match ConvertMembers(params, members)
       case Ok(fs) => Ok(Lowered.ObjectLit(t, fs))
       case Throw(msg) => Throw(msg))
    case Binary(t, op, l, r) =>
      (match ConvertExpr(params, l)
       case Throw(msg) => Throw(msg)
       case Ok(a) =>
         match ConvertExpr(params, r)
         case Throw(msg) => Throw(msg)
         case Ok(b) => Ok(Lowered.Binary(t, op, a, b)))
    case Unary(t, op, x) =>
      (match ConvertExpr(params, x)
       case Ok(a) => Ok(Lowered.Unary(t, op, a))
       case Throw(msg) => Throw(msg))
    case Sqrt(t, x) =>
      (match ConvertExpr(params, x)
       case Ok(a) => Ok(Lowered.Sqrt(t, a))
       case Throw(msg) => Throw(msg))
    case Str(_) => Throw(Unknown("string"))
    case AtomExpr(_) => Throw(Unknown("atom"))
    case Exp(_, _) => Throw(ReadingMap)
    case Dummy(_) => Throw(Unknown("dummy"))
  }

  /** `member.map(visit)`: the elements in order, the first throw ending the map. */
  function ConvertExprs(params: seq<Lowered.Field>, es: seq<Syntax.Expr>): (r: Result<seq<Lowered.Expr>>)
    ensures r.Ok? <==> SyntaxShapes(es).Some?
    ensures r.Ok? ==> |r.value| == |es| && SyntaxShapes(es).value == seq(|es|, k requires 0 <= k < |es| => LoweredShape(r.value[k]))
    ensures r.Ok? ==> forall k :: 0 <= k < |es| ==> Marked(params, r.value[k])
    decreases es, 0
  {
    if es == [] then Ok([])
    else
      match ConvertExprs(params, es[..|es| - 1])
      case Throw(msg) => Throw(msg)
      case Ok(front) =>
        match ConvertExpr(params, es[|es| - 1])
        case Throw(msg) => Throw(msg)
        case Ok(last) => Ok(front + [last])
  }

  /**
   * The MEMBER case: the member becomes a variable node copying the fields of
   * its converted value, all undefined when that value is not a variable.
   */
  function ConvertMember(params: seq<Lowered.Field>, m: Syntax.Member): (r: Result<Lowered.Field>)
    ensures r.Ok? <==> MemberName(m).Some?
    ensures r.Ok? ==> (r.value.FieldVar? <==> m.value.Var?)
    ensures r.Ok? && m.value.Var? ==> r.value == Lowered.FieldVar(ConvertVar(params, m.value.v).(token := m.token))
    ensures r.Ok? && !m.value.Var? ==> r.value == Lowered.Hollow(m.token)
    ensures r.Ok? ==> KeptName(r.value) == MemberName(m).value
    ensures r.Ok? && r.value.FieldVar? ==> r.value.v.isInParam == InParams(params, r.value.v.name)
    decreases m, 0
  {
    match ConvertExpr(params, m.value)
    case Throw(msg) => Throw(msg)
    case Ok(Var(v)) => Ok(Lowered.FieldVar(v.(token := m.token)))
    case Ok(_) => Ok(Lowered.Hollow(m.token))
  }

  function ConvertMembers(params: seq<Lowered.Field>, ms: seq<Syntax.Member>): (r: Result<seq<Lowered.Field>>)
    ensures r.Ok? <==> MemberNames(ms).Some?
    ensures r.Ok? ==> |r.value| == |ms|
    ensures r.Ok? ==>
      MemberNames(ms).value == seq(|ms|, k requires 0 <= k < |ms| => KeptName(r.value[k]))
    ensures r.Ok? ==> forall k :: 0 <= k < |ms| && r.value[k].FieldVar? ==>
      r.value[k].v.isInParam == InParams(params, r.value[k].v.name)
    decreases ms, 1
  {
    if ms == [] then Ok([])
    else
      match ConvertMembers(params, ms[..|ms| - 1])
      case Throw(msg) => Throw(msg)
      case Ok(front) =>
        match ConvertMember(params, ms[|ms| - 1])
        case Throw(msg) => Throw(msg)
        case Ok(last) => Ok(front + [last])
  }

  /** Every node of the expression has a visitor case. */
  predicate Convertible(e: Syntax.Expr) {
    SyntaxShape(e).Some?
  }

  // ---------------------------------------------------------------------------
  // Statements (converter.ts:172-270).

  predicate RhsConvertible(rhs: Syntax.BuildIn) {
    match rhs
    case ForRange(_, from, upper, inc) => Convertible(from) && Convertible(upper) && Convertible(inc)
    case Select(_, list) => Convertible(list)
    case Calc(e) => Convertible(e)
  }

  /** Every expression of the statement has a visitor case. */
  predicate StmtConvertible(s: Syntax.StmtExpr) {
    match s
    case Assign(_, lhs, rhs) =>
      Convertible(lhs) && RhsConvertible(rhs)
    case TestStmt(_, cond) => Convertible(cond)
    case When(_, cond) => Convertible(cond)
    case CallStmt(_, _, input, output) => Convertible(input) && Convertible(output)
  }

  /** Every variable of the statement carries its parameter status for `params`. */
  predicate MarkedStmt(params: seq<Lowered.Field>, s: Lowered.StmtNode) {
    match s
    case IfNode(_, cond) => Marked(params, cond)
    case AssignNode(_, lhs, rhs) => Marked(params, lhs) && Marked(params, rhs)
    case ReturnNode(_, ForGen(_, target, from, upper, inc)) =>
      Marked(params, target) && Marked(params, from) && Marked(params, upper) && Marked(params, inc)
    case ReturnNode(_, SelectGen(_, target, list)) => Marked(params, target) && Marked(params, list)
    case WhenNode(_, cond) => Marked(params, cond)
    case CallNode(_, _, input, output) => Marked(params, input) && Marked(params, output)
  }

  /**
   * The FOR and SELECT cases rebuild the generator, and ASSIGN turns an
   * assignment from a generator into a `return` of it, aimed at the converted
   * left-hand side and carrying that side's token; any other assignment stays
   * one. The left-hand side is converted before the right-hand side.
   */
  function ConvertAssign(params: seq<Lowered.Field>, t: Syntax.Token, lhs: Syntax.Expr, rhs: Syntax.BuildIn)
    : (r: Result<Lowered.StmtNode>)
    ensures r.Ok? <==> StmtConvertible(Syntax.Assign(t, lhs, rhs))
    ensures ConvertExpr(params, lhs).Throw? ==> r == Throw(ConvertExpr(params, lhs).message)
    ensures r.Ok? ==> r.value.token == t && MarkedStmt(params, r.value)
    ensures r.Ok? ==> (r.value.ReturnNode? <==> !rhs.Calc?)
    ensures r.Ok? && r.value.ReturnNode? ==>
      r.value.value.target == ConvertExpr(params, lhs).value && r.value.value.token == SortStmt.TokenOf(lhs)
    ensures r.Ok? && rhs.ForRange? ==>
      (r.value.value.ForGen? &&
       r.value.value.from == ConvertExpr(params, rhs.from).value &&
       r.value.value.upper == ConvertExpr(params, rhs.upper).value &&
       r.value.value.inc == ConvertExpr(params, rhs.inc).value)
    ensures r.Ok? && rhs.Select? ==> r.value.value.SelectGen? && r.value.value.list == ConvertExpr(params, rhs.list).value
    ensures r.Ok? && rhs.Calc? ==>
      r.value.AssignNode? && r.value.lhs == ConvertExpr(params, lhs).value && r.value.rhs == ConvertExpr(params, rhs.expr).value
  {
    match ConvertExpr(params, lhs)
    case Throw(msg) => Throw(msg)
    case Ok(target) =>
      match rhs
      case ForRange(_, from, upper, inc) =>
        (match (ConvertExpr(params, from), ConvertExpr(params, upper), ConvertExpr(params, inc))
         case (Throw(msg), _, _) => Throw(msg)
         case (Ok(_), Throw(msg), _) => Throw(msg)
         case (Ok(_), Ok(_), Throw(msg)) => Throw(msg)
         case (Ok(a), Ok(b), Ok(c)) =>
           Ok(Lowered.ReturnNode(t, Lowered.ForGen(TokenOf(target), target, a, b, c))))
      case Select(_, list) =>
        (match ConvertExpr(params, list)
         case Throw(msg) => Throw(msg)
         case Ok(l) => Ok(Lowered.ReturnNode(t, Lowered.SelectGen(TokenOf(target), target, l))))
      case Calc(e) =>
        (match ConvertExpr(params, e)
         case Throw(msg) => Throw(msg)
         case Ok(v) => Ok(Lowered.AssignNode(t, target, v)))
  }

  /** A statement: `test` becomes `if` holding only the converted condition. */
  function ConvertStmt(params: seq<Lowered.Field>, s: Syntax.StmtExpr): (r: Result<Lowered.StmtNode>)
    ensures r.Ok? <==> StmtConvertible(s)
    ensures r.Ok? ==> r.value.token == s.token && MarkedStmt(params, r.value)
    ensures r.Ok? ==> (r.value.IfNode? <==> s.TestStmt?)
    ensures r.Ok? ==> (r.value.WhenNode? <==> s.When?) && (r.value.CallNode? <==> s.CallStmt?)
    ensures r.Ok? && s.TestStmt? ==> r.value == Lowered.IfNode(s.token, ConvertExpr(params, s.cond).value)
  {
    match s
    case Assign(t, lhs, rhs) => ConvertAssign(params, t, lhs, rhs)
    case TestStmt(t, cond) =>
      (match ConvertExpr(params, cond)
       case Throw(msg) => Throw(msg)
       case Ok(c) => Ok(Lowered.IfNode(t, c)))
    case When(t, cond) =>
      (match ConvertExpr(params, cond)
       case Throw(msg) => Throw(msg)
       case Ok(c) => Ok(Lowered.WhenNode(t, c)))
    case CallStmt(t, name, input, output) =>
      (match (ConvertExpr(params, input), ConvertExpr(params, output))
       case (Throw(msg), _) => Throw(msg)
       case (Ok(_), Throw(msg)) => Throw(msg)
       case (Ok(i), Ok(o)) => Ok(Lowered.CallNode(t, name, i, o)))
  }

  /**
   * A statement block reads `stmt.stmt` of each statement; a dummy statement has
   * no `stmt`, and visiting undefined reads its `type`.
   */
  const ReadingType := "Cannot read properties of undefined (reading 'type')"

  predicate BodyConvertible(body: seq<Syntax.StmtNode>) {
    forall k :: 0 <= k < |body| ==> body[k].Stmt? && StmtConvertible(body[k].stmt)
  }

  /** The statements of a scheduled block, in order; the first throw ends the map. */
  function ConvertBody(params: seq<Lowered.Field>, body: seq<Syntax.StmtNode>): (r: Result<seq<Lowered.StmtNode>>)
    ensures r.Ok? <==> BodyConvertible(body)
    ensures r.Ok? ==> |r.value| == |body|
    ensures r.Ok? ==> forall k :: 0 <= k < |body| ==>
      r.value[k] == ConvertStmt(params, body[k].stmt).value && MarkedStmt(params, r.value[k])
  {
    if body == [] then Ok([])
    else
      match ConvertBody(params, body[..|body| - 1])
      case Throw(msg) => Throw(msg)
      case Ok(front) =>
        var last := body[|body| - 1];
        if last.DummyStmt? then Throw(ReadingType)
        else
          match ConvertStmt(params, last.stmt)
          case Throw(msg) => Throw(msg)
          case Ok(s) => Ok(front + [s])
  }

  /** The `stmt-block` case: a class with one method holding the converted statements. */
  function ConvertScheduled(params: seq<Lowered.Field>, b: SortStmt.StmtBlock): (r: Result<Lowered.StmtClass>)
    ensures r.Ok? <==> BodyConvertible(b.body)
    ensures r.Ok? ==> r.value.token == b.token && r.value.name == "" && |r.value.body| == |b.body|
    ensures r.Ok? ==> forall k :: 0 <= k < |b.body| ==> MarkedStmt(params, r.value.body[k])
  {
    match ConvertBody(params, b.body)
    case Throw(msg) => Throw(msg)
    case Ok(body) => Ok(Lowered.StmtClass(b.token, "", body))
  }

  /**
   * The scheduled blocks in schedule order, the class of the block at index k
   * renamed `${k + 1}`.
   */
  function ConvertSchedule(params: seq<Lowered.Field>, sorted: seq<SortStmt.StmtBlock>): (r: Result<seq<Lowered.StmtClass>>)
    ensures r.Ok? <==> forall k :: 0 <= k < |sorted| ==> BodyConvertible(sorted[k].body)
    ensures r.Ok? ==> |r.value| == |sorted|
    ensures r.Ok? ==> forall k :: 0 <= k < |sorted| ==>
      r.value[k].name == NatToString(k + 1) && r.value[k].token == sorted[k].token &&
      |r.value[k].body| == |sorted[k].body|
    ensures r.Ok? ==> forall k, j :: 0 <= k < |sorted| && 0 <= j < |r.value[k].body| ==>
      MarkedStmt(params, r.value[k].body[j])
  {
    if sorted == [] then Ok([])
    else
      match ConvertSchedule(params, sorted[..|sorted| - 1])
      case Throw(msg) => Throw(msg)
      case Ok(front) =>
        match ConvertScheduled(params, sorted[|sorted| - 1])
        case Throw(msg) => Throw(msg)
        case Ok(c) => Ok(front + [c.(name := NatToString(|sorted|))])
  }

  // ---------------------------------------------------------------------------
  // Blocks (converter.ts:291-315).

  /** Every variable of the block class, its parameters included, carries its parameter status for `params`. */
  predicate MarkedBlock(params: seq<Lowered.Field>, b: Lowered.BlockClass) {
    && (b.guard.Some? ==> Marked(params, b.guard.value))
    && (forall k, j :: 0 <= k < |b.body| && 0 <= j < |b.body[k].body| ==> MarkedStmt(params, b.body[k].body[j]))
    && (forall k, j :: 0 <= k < |b.fieldList| && 0 <= j < |b.fieldList[k].value| && b.fieldList[k].value[j].FieldVar? ==>
          b.fieldList[k].value[j].v.isInParam == InParams(params, b.fieldList[k].value[j].v.name))
  }

  /** The block's variables, each visited and wrapped in a parameter of its own. */
  function VarParams(params: seq<Lowered.Field>, vars: seq<Syntax.VarNode>): seq<Lowered.Param> {
    seq(|vars|, k requires 0 <= k < |vars| =>
      Lowered.Param(vars[k].token, [Lowered.FieldVar(ConvertVar(params, vars[k]))]))
  }

  function ConvertGuard(params: seq<Lowered.Field>, guard: Option<Syntax.Expr>): Result<Option<Lowered.Expr>> {
    match guard
    case None => Ok(None)
    case Some(e) =>
      match ConvertExpr(params, e)
      case Throw(msg) => Throw(msg)
      case Ok(c) => Ok(Some(c))
  }

  /**
   * The BLOCK case: the guard is converted first, then the body is scheduled
   * and each scheduled block becomes a class named by its position, then the
   * block variables become parameters.
   */
  function ConvertBlock(params: seq<Lowered.Field>, b: Syntax.BlockNode, fuel: nat): (r: Outcome<Lowered.BlockClass>)
    ensures b.DummyBlock? ==> r == Throws(Unknown("dummy"))
  {
    match b
    case DummyBlock(_) => Throws(Unknown("dummy"))
    case Block(t, body, varList, guard) =>
      match ConvertGuard(params, guard)
      case Throw(msg) => Throws(msg)
      case Ok(g) =>
        match SortStmt.Schedule(body, fuel)
        case Throws(msg) => Throws(msg)
        case Diverges => Diverges
        case Returns(sorted) =>
          match ConvertSchedule(params, sorted)
          case Throw(msg) => Throws(msg)
          case Ok(classes) => Returns(Lowered.BlockClass(t, "", VarParams(params, varList), classes, g))
  }

  /**
   * A block converts exactly when its guard does, the scheduler returns and
   * every scheduled statement converts; it diverges exactly when the scheduler
   * does. Its classes are the scheduled blocks in order, named "1".."n"; its
   * parameters are its variables, one each; all its variables are marked.
   */
  lemma BlockConverted(params: seq<Lowered.Field>, b: Syntax.BlockNode, fuel: nat)
    ensures var r := ConvertBlock(params, b, fuel);
      r.Diverges? <==>
        b.Block? && (b.guard.Some? ==> Convertible(b.guard.value)) && SortStmt.Schedule(b.body, fuel).Diverges?
    ensures var r := ConvertBlock(params, b, fuel);
      r.Returns? <==>
        && b.Block? && (b.guard.Some? ==> Convertible(b.guard.value))
        && SortStmt.Schedule(b.body, fuel).Returns?
        && forall k :: 0 <= k < |SortStmt.Schedule(b.body, fuel).value| ==>
             BodyConvertible(SortStmt.Schedule(b.body, fuel).value[k].body)
    ensures var r := ConvertBlock(params, b, fuel);
      r.Returns? ==>
        var sorted := SortStmt.Schedule(b.body, fuel).value;
        && |r.value.body| == |sorted|
        && (forall k :: 0 <= k < |sorted| ==>
              r.value.body[k].name == NatToString(k + 1) && r.value.body[k].token == sorted[k].token &&
              |r.value.body[k].body| == |sorted[k].body|)
    ensures var r := ConvertBlock(params, b, fuel);
      r.Returns? ==>
        && r.value.token == b.token && r.value.name == ""
        && (r.value.guard.Some? <==> b.guard.Some?)
        && |r.value.fieldList| == |b.varList|
        && (forall k :: 0 <= k < |b.varList| ==>
              r.value.fieldList[k] == Lowered.Param(b.varList[k].token, [Lowered.FieldVar(ConvertVar(params, b.varList[k]))]))
        && MarkedBlock(params, r.value)
  {
  }

  // ---------------------------------------------------------------------------
  // Parameters (converter.ts:317-324).

  /** An atom parameter's value is a literal node, not an array: `member.map` is not a function. */
  const NotAnArray := "member.map is not a function"

  /** The PARAM case without its push: the members of a vector parameter, converted. */
  function ConvertParam(params: seq<Lowered.Field>, p: Syntax.ParamNode): (r: Result<Lowered.Param>)
    ensures p.AtomParam? ==> r == Throw(NotAnArray)
    ensures p.DummyParam? ==> r == Throw(Unknown("dummy"))
    ensures r.Ok? <==> p.VectorParam? && MemberNames(p.members).Some?
    ensures r.Ok? ==> r.value.token == p.token && |r.value.value| == |p.members|
    ensures r.Ok? ==> MemberNames(p.members).value == seq(|p.members|, k requires 0 <= k < |p.members| => KeptName(r.value.value[k]))
    ensures r.Ok? ==> forall k :: 0 <= k < |p.members| && r.value.value[k].FieldVar? ==>
      r.value.value[k].v.isInParam == InParams(params, r.value.value[k].v.name)
  {
    match p
    case AtomParam(_) => Throw(NotAnArray)
    case DummyParam(_) => Throw(Unknown("dummy"))
    case VectorParam(t, members) =>
      match ConvertMembers(params, members)
      case Throw(msg) => Throw(msg)
      case Ok(fields) => Ok(Lowered.Param(t, fields))
  }

  /**
   * The parameters of a module, visited in order: each is converted against the
   * list so far and then pushed onto it.
   */
  function ConvertParams(params: seq<Lowered.Field>, ps: seq<Syntax.ParamNode>): (r: Result<seq<Lowered.Param>>)
    ensures r.Ok? <==> forall k :: 0 <= k < |ps| ==> ps[k].VectorParam? && MemberNames(ps[k].members).Some?
    ensures r.Ok? ==> |r.value| == |ps|
  {
    if ps == [] then Ok([])
    else
      match ConvertParams(params, ps[..|ps| - 1])
      case Throw(msg) => Throw(msg)
      case Ok(front) =>
        match ConvertParam(params + Lowered.Fields(front), ps[|ps| - 1])
        case Throw(msg) => Throw(msg)
        case Ok(last) => Ok(front + [last])
  }

  /** One more parameter visited without a throw. */
  lemma ParamsStep(params: seq<Lowered.Field>, ps: seq<Syntax.ParamNode>, i: nat, fields: seq<Lowered.Param>, p: Lowered.Param)
    requires i < |ps| && ConvertParams(params, ps[..i]) == Ok(fields)
    requires ConvertParam(params + Lowered.Fields(fields), ps[i]) == Ok(p)
    ensures ConvertParams(params, ps[..i + 1]) == Ok(fields + [p])
    ensures params + Lowered.Fields(fields + [p]) == (params + Lowered.Fields(fields)) + p.value
  {
    assert ps[..i + 1][..i] == ps[..i];
    assert (fields + [p])[..|fields|] == fields;
    AppendAssoc(params, Lowered.Fields(fields), p.value);
  }

  /** A throw while visiting the parameters ends the map: later parameters are not visited. */
  lemma {:induction false} ParamsThrowKept(params: seq<Lowered.Field>, ps: seq<Syntax.ParamNode>, i: nat)
    requires i <= |ps| && ConvertParams(params, ps[..i]).Throw?
    ensures ConvertParams(params, ps) == ConvertParams(params, ps[..i])
    decreases |ps|
  {
    if i < |ps| {
      assert ps[..|ps| - 1][..i] == ps[..i];
      ParamsThrowKept(params, ps[..|ps| - 1], i);
    } else {
      assert ps[..i] == ps;
    }
  }

  /**
   * A member of a module parameter is marked as a parameter exactly when a
   * variable of its name was pushed before it: by an earlier parameter, or
   * before the module (the list is never reset).
   */
  lemma {:induction false} ParamsMarkedEarlier(params: seq<Lowered.Field>, ps: seq<Syntax.ParamNode>, k: nat, j: nat)
    requires ConvertParams(params, ps).Ok?
    requires k < |ps|
    requires var p := ConvertParams(params, ps).value[k]; j < |p.value| && p.value[j].FieldVar?
    ensures var out := ConvertParams(params, ps).value;
      out[k].value[j].v.isInParam == InParams(params + Lowered.Fields(out[..k]), out[k].value[j].v.name)
    decreases |ps|
  {
    var out := ConvertParams(params, ps).value;
    var front := ConvertParams(params, ps[..|ps| - 1]);
    assert out == front.value + [out[|ps| - 1]];
    if k < |ps| - 1 {
      ParamsMarkedEarlier(params, ps[..|ps| - 1], k, j);
      assert out[..k] == front.value[..k];
    } else {
      assert out[..k] == front.value;
    }
  }

  // ---------------------------------------------------------------------------
  // Modules and the program (converter.ts:326-359).

  /** The method blocks of a module, each converted against the same list; the first that does not return ends the map. */
  function ConvertBlocks(params: seq<Lowered.Field>, bs: seq<Syntax.BlockNode>, fuel: nat): (r: Outcome<seq<Lowered.BlockClass>>)
    ensures r.Returns? ==> |r.value| == |bs|
  {
    if bs == [] then Returns([])
    else
      match ConvertBlocks(params, bs[..|bs| - 1], fuel)
      case Throws(msg) => Throws(msg)
      case Diverges => Diverges
      case Returns(front) =>
        match ConvertBlock(params, bs[|bs| - 1], fuel)
        case Throws(msg) => Throws(msg)
        case Diverges => Diverges
        case Returns(last) => Returns(front + [last])
  }

  lemma {:induction false} BlocksConverted(params: seq<Lowered.Field>, bs: seq<Syntax.BlockNode>, fuel: nat, k: nat)
    requires ConvertBlocks(params, bs, fuel).Returns? && k < |bs|
    ensures ConvertBlock(params, bs[k], fuel) == Returns(ConvertBlocks(params, bs, fuel).value[k])
    decreases |bs|
  {
    var front := ConvertBlocks(params, bs[..|bs| - 1], fuel);
    var last := ConvertBlock(params, bs[|bs| - 1], fuel);
    assert front.Returns? && last.Returns?;
    assert ConvertBlocks(params, bs, fuel).value == front.value + [last.value];
    if k < |bs| - 1 {
      BlocksConverted(params, bs[..|bs| - 1], fuel, k);
      assert bs[..|bs| - 1][k] == bs[k];
    }
  }

  /** The block classes renamed "1".."n" by position, as the MODULE case does once they are built. */
  function Numbered(bs: seq<Lowered.BlockClass>): (r: seq<Lowered.BlockClass>)
    ensures |r| == |bs|
    ensures forall k :: 0 <= k < |bs| ==> r[k].name == NatToString(k + 1)
  {
    seq(|bs|, k requires 0 <= k < |bs| => bs[k].(name := NatToString(k + 1)))
  }

  /**
   * The MODULE case: the parameters are visited first, pushing their members;
   * the method blocks are then converted against the grown list and numbered.
   */
  function ConvertModule(params: seq<Lowered.Field>, m: Syntax.ModuleNode, fuel: nat): (r: Outcome<Lowered.ModuleClass>)
    ensures m.DummyModule? ==> r == Throws(Unknown("dummy"))
    ensures r.Returns? ==>
      && m.Module? && r.value.token == m.token && r.value.name == m.name
      && |r.value.fieldList| == |m.params| && |r.value.body| == |m.body|
      && forall k :: 0 <= k < |m.body| ==> r.value.body[k].name == NatToString(k + 1)
  {
    match m
    case DummyModule(_) => Throws(Unknown("dummy"))
    case Module(t, name, ps, body, _) =>
      match ConvertParams(params, ps)
      case Throw(msg) => Throws(msg)
      case Ok(fields) =>
        match ConvertBlocks(params + Lowered.Fields(fields), body, fuel)
        case Throws(msg) => Throws(msg)
        case Diverges => Diverges
        case Returns(bs) => Returns(Lowered.ModuleClass(t, name, fields, Numbered(bs)))
  }

  /**
   * The blocks of a module see every variable its own parameters declare and
   * every one declared before the module, and no other.
   */
  lemma ModuleBlocksMarked(params: seq<Lowered.Field>, m: Syntax.ModuleNode, fuel: nat, k: nat)
    requires ConvertModule(params, m, fuel).Returns? && k < |m.body|
    ensures var out := ConvertModule(params, m, fuel).value;
      MarkedBlock(params + Lowered.Fields(out.fieldList), out.body[k])
  {
    var fields := ConvertParams(params, m.params).value;
    var bs := ConvertBlocks(params + Lowered.Fields(fields), m.body, fuel);
    BlocksConverted(params + Lowered.Fields(fields), m.body, fuel, k);
    BlockConverted(params + Lowered.Fields(fields), m.body[k], fuel);
  }

  /** The modules in order, each seeing the parameters of those before it. */
  function ConvertModules(params: seq<Lowered.Field>, ms: seq<Syntax.ModuleNode>, fuel: nat): (r: Outcome<seq<Lowered.ModuleClass>>)
    ensures r.Returns? ==> |r.value| == |ms|
  {
    if ms == [] then Returns([])
    else
      match ConvertModules(params, ms[..|ms| - 1], fuel)
      case Throws(msg) => Throws(msg)
      case Diverges => Diverges
      case Returns(front) =>
        match ConvertModule(params + Lowered.ProgramFields(front), ms[|ms| - 1], fuel)
        case Throws(msg) => Throws(msg)
        case Diverges => Diverges
        case Returns(last) => Returns(front + [last])
  }

  /** `converter`: a fresh converter, whose list starts empty, visits the program. */
  function ConvertProgram(prog: Syntax.Program, fuel: nat): Outcome<Lowered.Program> {
    match ConvertModules([], prog.body, fuel)
    case Throws(msg) => Throws(msg)
    case Diverges => Diverges
    case Returns(ms) => Returns(Lowered.Program(ms))
  }

  lemma {:induction false} ModulesConverted(params: seq<Lowered.Field>, ms: seq<Syntax.ModuleNode>, fuel: nat, i: nat)
    requires ConvertModules(params, ms, fuel).Returns? && i < |ms|
    ensures var out := ConvertModules(params, ms, fuel).value;
      ConvertModule(params + Lowered.ProgramFields(out[..i]), ms[i], fuel) == Returns(out[i])
    decreases |ms|
  {
    var out := ConvertModules(params, ms, fuel).value;
    var front := ConvertModules(params, ms[..|ms| - 1], fuel).value;
    assert out == front + [out[|ms| - 1]];
    if i < |ms| - 1 {
      ModulesConverted(params, ms[..|ms| - 1], fuel, i);
      assert out[..i] == front[..i];
      assert ms[..|ms| - 1][i] == ms[i];
    } else {
      assert out[..i] == front;
    }
  }

  /** One more module converted. */
  lemma ModulesStep(params: seq<Lowered.Field>, ms: seq<Syntax.ModuleNode>, fuel: nat, i: nat,
                    modules: seq<Lowered.ModuleClass>, m: Lowered.ModuleClass)
    requires i < |ms| && ConvertModules(params, ms[..i], fuel) == Returns(modules)
    requires ConvertModule(params + Lowered.ProgramFields(modules), ms[i], fuel) == Returns(m)
    ensures ConvertModules(params, ms[..i + 1], fuel) == Returns(modules + [m])
    ensures params + Lowered.ProgramFields(modules + [m]) == (params + Lowered.ProgramFields(modules)) + Lowered.Fields(m.fieldList)
  {
    assert ms[..i + 1][..i] == ms[..i];
    assert (modules + [m])[..|modules|] == modules;
    AppendAssoc(params, Lowered.ProgramFields(modules), Lowered.Fields(m.fieldList));
  }

  /** A module that throws or diverges ends the map: later modules are not visited. */
  lemma {:induction false} ModulesStopKept(params: seq<Lowered.Field>, ms: seq<Syntax.ModuleNode>, fuel: nat, i: nat)
    requires i <= |ms| && !ConvertModules(params, ms[..i], fuel).Returns?
    ensures ConvertModules(params, ms, fuel) == ConvertModules(params, ms[..i], fuel)
    decreases |ms|
  {
    if i < |ms| {
      assert ms[..|ms| - 1][..i] == ms[..i];
      ModulesStopKept(params, ms[..|ms| - 1], fuel, i);
    } else {
      assert ms[..i] == ms;
    }
  }

  /**
   * The parameter list is never reset between modules: a variable in a block of
   * module i is marked as a parameter exactly when a parameter of module i or of
   * any module before it declares its name.
   */
  lemma ProgramMarked(prog: Syntax.Program, fuel: nat, i: nat, k: nat)
    requires ConvertProgram(prog, fuel).Returns?
    requires var out := ConvertProgram(prog, fuel).value.body; i < |out| && k < |out[i].body|
    ensures var out := ConvertProgram(prog, fuel).value.body;
      MarkedBlock(Lowered.ProgramFields(out[..i + 1]), out[i].body[k])
  {
    var out := ConvertModules([], prog.body, fuel).value;
    assert out == ConvertProgram(prog, fuel).value.body;
    ModulesConverted([], prog.body, fuel, i);
    var seen := Lowered.ProgramFields(out[..i]);
    assert [] + seen == seen;
    ModuleBlocksMarked(seen, prog.body[i], fuel, k);
    assert out[..i + 1][..i] == out[..i];
  }

  // ---------------------------------------------------------------------------
  // The converter object.

  class ASTConverter {
    /** Every member of every parameter visited so far, in visiting order. */
    var params: seq<Lowered.Field>

    constructor()
      ensures params == []
    {
      params := [];
    }

    /** The PARAM case: the members are converted against the list, then pushed onto it. */
    method VisitParam(p: Syntax.ParamNode) returns (r: Result<Lowered.Param>)
      modifies this
      ensures r == ConvertParam(old(params), p)
      ensures params == if r.Ok? then old(params) + r.value.value else old(params)
    {
      r := ConvertParam(params, p);
      if r.Ok? {
        params := params + r.value.value;
      }
    }

    /** `node.paramList.map(visit)`: afterwards the list holds every converted member. */
    method VisitParams(ps: seq<Syntax.ParamNode>) returns (r: Result<seq<Lowered.Param>>)
      modifies this
      ensures r == ConvertParams(old(params), ps)
      ensures r.Ok? ==> params == old(params) + Lowered.Fields(r.value)
      ensures old(params) <= params
    {
      var fields: seq<Lowered.Param> := [];
      var i := 0;
      while i < |ps|
        invariant 0 <= i <= |ps|
        invariant ConvertParams(old(params), ps[..i]) == Ok(fields)
        invariant params == old(params) + Lowered.Fields(fields)
      {
        var p := VisitParam(ps[i]);
        if p.Throw? {
          assert ps[..i + 1][..i] == ps[..i];
          ParamsThrowKept(old(params), ps, i + 1);
          return Throw(p.message);
        }
        ParamsStep(old(params), ps, i, fields, p.value);
        fields := fields + [p.value];
        i := i + 1;
      }
      assert ps[..i] == ps;
      r := Ok(fields);
    }
  
    /**
     * The MODULE case: parameters first, then the method blocks against the
     * grown list, then each block class renamed by its position.
     */
    method VisitModule(m: Syntax.ModuleNode, fuel: nat) returns (r: Outcome<Lowered.ModuleClass>)
      modifies this
      ensures r == ConvertModule(old(params), m, fuel)
      ensures r.Returns? ==> params == old(params) + Lowered.Fields(r.value.fieldList)
      ensures old(params) <= params
    {
      if m.DummyModule? {
        return Throws(Unknown("dummy"));
      }
      var fields := VisitParams(m.params);
      if fields.Throw? {
        return Throws(fields.message);
      }
      var built := ConvertBlocks(params, m.body, fuel);
      if !built.Returns? {
        return if built.Diverges? then Diverges else Throws(built.message);
      }
      var body := built.value;
      var i := 0;
      while i < |body|
        invariant 0 <= i <= |body| == |built.value|
        invariant forall k :: 0 <= k < i ==> body[k] == built.value[k].(name := NatToString(k + 1))
        invariant forall k :: i <= k < |body| ==> body[k] == built.value[k]
      {
        body := body[i := body[i].(name := NatToString(i + 1))];
        i := i + 1;
      }
      assert body == Numbered(built.value);
      r := Returns(Lowered.ModuleClass(m.token, m.name, fields.value, body));
    }

    /** The PROGRAM case: the modules in order, the list growing across them. */
    method Convert(prog: Syntax.Program, fuel: nat) returns (r: Outcome<Lowered.Program>)
      modifies this
      ensures r == match ConvertModules(old(params), prog.body, fuel)
                   case Throws(msg) => Throws(msg)
                   case Diverges => Diverges
                   case Returns(ms) => Returns(Lowered.Program(ms))
      ensures r.Returns? ==> params == old(params) + Lowered.ProgramFields(r.value.body)
      ensures old(params) <= params
    {
      var modules: seq<Lowered.ModuleClass> := [];
      var i := 0;
      while i < |prog.body|
        invariant 0 <= i <= |prog.body|
        invariant ConvertModules(old(params), prog.body[..i], fuel) == Returns(modules)
        invariant params == old(params) + Lowered.ProgramFields(modules)
      {
        var m := VisitModule(prog.body[i], fuel);
        if !m.Returns? {
          assert prog.body[..i + 1][..i] == prog.body[..i];
          ModulesStopKept(old(params), prog.body, fuel, i + 1);
          return if m.Diverges? then Diverges else Throws(m.message);
        }
        ModulesStep(old(params), prog.body, fuel, i, modules, m.value);
        modules := modules + [m.value];
        i := i + 1;
      }
      assert prog.body[..i] == prog.body;
      r := Returns(Lowered.Program(modules));
    }
  }

  /** `converter`: each call uses a fresh converter, so its list starts empty. */
  method Lower(prog: Syntax.Program, fuel: nat) returns (r: Outcome<Lowered.Program>)
    ensures r == ConvertProgram(prog, fuel)
  {
    var c := new ASTConverter();
    r := c.Convert(prog, fuel);
  }
}
