/**
 * The code generator of src/lib/compiler/codeGen.ts: the lowered tree is printed
 * as a TypeScript module of classes that drive the runtime (VM, For, Member, ...).
 *
 * Expressions, statements and generators are printed by pure recursive
 * functions. The generator object appends lines to its `output` buffer; the
 * block and class printers gather their parts in loops. Every printer that the
 * source can make throw returns a `Result`.
 */
module CodeGen {
  import opened Base
  import Syntax
  import opened Lowered
  import Utils
  import Lists

  // ---------------------------------------------------------------------------
  // Case mapping of ASCII letters (String.prototype.toUpperCase/toLowerCase on
  // the names the compiler produces, which are ASCII).

  function UpperChar(c: char): (u: char)
    ensures 'a' <= c <= 'z' ==> 'A' <= u <= 'Z'
    ensures !('a' <= c <= 'z') ==> u == c
  {
    if 'a' <= c <= 'z' then (c as int - 32) as char else c
  }

  function LowerChar(c: char): (l: char)
    ensures 'A' <= c <= 'Z' ==> 'a' <= l <= 'z'
    ensures !('A' <= c <= 'Z') ==> l == c
  {
    if 'A' <= c <= 'Z' then (c as int + 32) as char else c
  }

  function Lower(s: string): (r: string)
    ensures |r| == |s|
    ensures forall k :: 0 <= k < |s| ==> r[k] == LowerChar(s[k])
  {
    seq(|s|, k requires 0 <= k < |s| => LowerChar(s[k]))
  }

  /** `name.charAt(0).toUpperCase() + name.slice(1)`. */
  function Capitalise(s: string): (r: string)
    ensures |r| == |s|
    ensures s != [] ==> r[0] == UpperChar(s[0]) && r[1..] == s[1..]
  {
    if s == [] then "" else [UpperChar(s[0])] + s[1..]
  }

  // ---------------------------------------------------------------------------
  // Expressions (codeGen.ts:340-438).

  /** The infix text of a binary operator, spaces included. */
  function OpText(op: Syntax.BinOp): (s: string)
    ensures |s| >= 3 && s[0] == ' ' && s[|s| - 1] == ' '
  {
    match op
    case Add => " + "
    case Sub => " - "
    case Mul => " * "
    case Div => " / "
    case Mod => " % "
    case Pow => " ** "
    case Eq => " === "
    case Ne => " !== "
    case Lt => " < "
    case Le => " <= "
    case And => " && "
    case Or => " || "
  }

  function UnaryText(op: Syntax.UnOp): string {
    match op
    case Not => "!"
    case Neg => "-"
  }

  /** The object a variable lives in: the module's (`outerThis`) or the block's (`methodThis`). */
  function Holder(v: VarNode): string {
    if v.isInParam then "outerThis" else "methodThis"
  }

  /** The typed getter of a cell: by the converted type of the variable. */
  function Getter(t: NewType): string {
    match t.kind
    case NumberType => "getNumberValue"
    case StringType => "getStringValue"
    case _ => "getValue"
  }

  /**
   * `primaryGen`: a literal prints its token text, a variable its cell (bare when
   * `isVarRef`, else read with its getter); every other node prints nothing.
   */
  function PrimaryGen(e: Expr, isVarRef: bool): (r: string)
    ensures e.Var? && isVarRef ==> r == Holder(e.v) + "." + e.v.name
  {
    match e
    case Num(t) => t.value
    case Var(v) => if isVarRef then Holder(v) + "." + v.name else Holder(v) + "." + v.name + "." + Getter(v.valueType) + "()"
    case _ => ""
  }

  /** `exprGen`: operators infix, without parentheses; operands are read by value. */
  function ExprGen(e: Expr, isVarRef: bool): string
  {
    match e
    case Binary(_, op, l, r) => ExprGen(l, false) + OpText(op) + ExprGen(r, false)
    case Unary(_, op, x) => UnaryText(op) + ExprGen(x, false)
    case _ => PrimaryGen(e, isVarRef)
  }

  /** Every opening parenthesis is at once closed: the text has no grouping. */
  predicate NoGrouping(s: string) {
    forall k :: 0 <= k < |s| && s[k] == '(' ==> k + 1 < |s| && s[k + 1] == ')'
  }

  /** Neither token texts nor variable names of `e` hold a parenthesis. */
  predicate PlainLeaves(e: Expr) {
    match e
    case Num(t) => '(' !in t.value
    case Var(v) => '(' !in v.name
    case Binary(_, _, l, r) => PlainLeaves(l) && PlainLeaves(r)
    case Unary(_, _, x) => PlainLeaves(x)
    case _ => true
  }

  lemma NoGroupingJoin(a: string, b: string)
    requires NoGrouping(a) && NoGrouping(b)
    ensures NoGrouping(a + b)
  {
    forall k | 0 <= k < |a + b| && (a + b)[k] == '('
      ensures k + 1 < |a + b| && (a + b)[k + 1] == ')'
    {
      if k >= |a| {
        assert b[k - |a|] == '(';
      } else {
        assert a[k] == '(';
      }
    }
  }

  lemma NoGroupingPlain(s: string)
    requires '(' !in s
    ensures NoGrouping(s)
  {
    forall k | 0 <= k < |s|
      ensures s[k] != '('
    {
      assert s[k] in s;
    }
  }

  /**
   * The printed expression carries no grouping parentheses at all: the only
   * parentheses are the `()` of getter calls. The tree's nesting is not printed.
   */
  lemma {:induction false} ExprGenNoGrouping(e: Expr, isVarRef: bool)
    requires PlainLeaves(e)
    ensures NoGrouping(ExprGen(e, isVarRef))
  {
    match e
    case Binary(_, op, l, r) =>
      ExprGenNoGrouping(l, false);
      ExprGenNoGrouping(r, false);
      NoGroupingPlain(OpText(op));
      NoGroupingJoin(ExprGen(l, false), OpText(op));
      NoGroupingJoin(ExprGen(l, false) + OpText(op), ExprGen(r, false));
    case Unary(_, op, x) =>
      ExprGenNoGrouping(x, false);
      NoGroupingPlain(UnaryText(op));
      NoGroupingJoin(UnaryText(op), ExprGen(x, false));
    case Num(t) =>
      NoGroupingPlain(t.value);
    case Var(v) =>
      NoGroupingPlain(v.name);
      NoGroupingPlain(Holder(v) + ".");
      if !isVarRef {
        NoGroupingPlain("." + Getter(v.valueType));
        NoGroupingJoin(Holder(v) + ".", v.name);
        NoGroupingJoin(Holder(v) + "." + v.name, "." + Getter(v.valueType));
        assert NoGrouping("()");
        NoGroupingJoin(Holder(v) + "." + v.name + "." + Getter(v.valueType), "()");
      } else {
        NoGroupingJoin(Holder(v) + ".", v.name);
      }
    case ListLit(_, _) =>
    case ObjectLit(_, _) =>
    case Sqrt(_, _) =>
  }

  /**
   * Printing loses precedence: `(a + b) * c` and `a + b * c` print the same text,
   * so the generated code evaluates both as `a + (b * c)`.
   */
  lemma ExprGenAmbiguous(t1: Syntax.Token, t2: Syntax.Token, a: Expr, b: Expr, c: Expr)
    ensures ExprGen(Binary(t1, Syntax.Mul, Binary(t2, Syntax.Add, a, b), c), false)
         == ExprGen(Binary(t2, Syntax.Add, a, Binary(t1, Syntax.Mul, b, c)), false)
  {
    var x, y, z := ExprGen(a, false), ExprGen(b, false), ExprGen(c, false);
    assert (x + " + " + y) + " * " + z == x + " + " + (y + " * " + z);
  }

  /** A variable's text starts with `outerThis.` exactly when the variable is a module parameter. */
  lemma VarHolder(v: VarNode, isVarRef: bool)
    ensures var r := ExprGen(Var(v), isVarRef);
      (|r| >= 10 && r[..10] == "outerThis.") <==> v.isInParam
  {
    var r := ExprGen(Var(v), isVarRef);
    var h := Holder(v) + ".";
    assert r[..|h|] == h;
    if !v.isInParam {
      assert |h| == 11 && r[..10] == h[..10];
      assert h[0] == 'm' && "outerThis."[0] == 'o';
    }
  }

  // ---------------------------------------------------------------------------
  // Generators and statements (codeGen.ts:274-338).

  /** `buildInGen` on the right-hand side of an assignment: a square root at the top, else the expression. */
  function RhsGen(e: Expr): string {
    match e
    case Sqrt(_, x) => "Math.sqrt(" + ExprGen(x, false) + ")"
    case _ => ExprGen(e, false)
  }

  /** `buildInGen` on a generator: a `For` or `Member` goal over cell references, continuing with `cont`. */
  function GeneratorGen(g: Generator, cont: string): (r: string)
    ensures g.ForGen? ==> "new For(" <= r
    ensures g.SelectGen? ==> "new Member(" <= r
  {
    match g
    case ForGen(_, target, from, upper, inc) =>
      "new For(" + PrimaryGen(target, true) + ", " + ExprGen(from, true) + ", " + ExprGen(upper, true)
      + ", " + ExprGen(inc, true) + ", " + cont + ")"
    case SelectGen(_, target, list) =>
      "new Member(" + PrimaryGen(target, true) + ", " + ExprGen(list, true) + ", " + cont + ")"
  }

  /** `stmt.lhs as VarNode`: the cell an assignment writes. */
  function LhsText(lhs: Expr): string {
    if lhs.Var? then Holder(lhs.v) + "." + lhs.v.name else "methodThis.undefined"
  }

  const Indent: string := "                "

  /** `stmtGen`. A `when` or `call` node has an undefined kind and prints nothing. */
  function StmtGen(s: StmtNode, cont: string): string {
    match s
    case IfNode(_, cond) =>
      Indent + "if (!(" + ExprGen(cond, false) + ")) {\n"
      + Indent + "  return Predicate.failure;\n"
      + Indent + "}\n"
      + Indent + "return " + cont + ";"
    case AssignNode(_, lhs, rhs) => Indent + LhsText(lhs) + ".setValue(" + RhsGen(rhs) + ");"
    case ReturnNode(_, g) => Indent + "return " + GeneratorGen(g, cont) + ";"
    case WhenNode(_, _) => ""
    case CallNode(_, _, _, _) => ""
  }

  /** The continuation of a statement class: the block's next statement class, else the module's `cont`. */
  function Cont(blockName: string, next: Option<string>): (c: string)
    ensures next.Some? && next.value != "" ==> c == "methodThis." + Lower(blockName) + "_cu" + next.value
    ensures next.None? ==> c == "outerThis.cont"
  {
    if next.Some? && next.value != "" then "methodThis." + Lower(blockName) + "_cu" + next.value else "outerThis.cont"
  }

  /**
   * The lines of a method body: each statement's text, and after the last one,
   * when it is an assignment, a `return` of the continuation.
   */
  function ExecBody(body: seq<StmtNode>, c: string): (lines: seq<string>)
    ensures |lines| == |body|
  {
    seq(|body|, i requires 0 <= i < |body| =>
      StmtGen(body[i], c) + (if i == |body| - 1 && body[i].AssignNode? then Indent + "return " + c + ";\n" else ""))
  }

  /**
   * A `return` of the continuation is added after an assignment only when it
   * ends the body; every other statement prints as `stmtGen` alone.
   */
  lemma ExecBodyReturn(body: seq<StmtNode>, c: string, i: nat)
    requires i < |body|
    ensures i < |body| - 1 || !body[i].AssignNode? ==> ExecBody(body, c)[i] == StmtGen(body[i], c)
    ensures i == |body| - 1 && body[i].AssignNode? ==> ExecBody(body, c)[i] == StmtGen(body[i], c) + Indent + "return " + c + ";\n"
  {
  }

  /**
   * `codeStmt`: a statement class as an inner class of its block whose `exec` runs
   * the statements. The class has one method, so the loop over methods runs once.
   */
  function StmtText(s: StmtClass, blockName: string, next: Option<string>): seq<string> {
    var c := Cont(blockName, next);
    var name := blockName + "_cu" + s.name;
    ["        public " + name + ": IC = createInnerClass(this).with(",
     "          (methodThis) =>",
     "            class implements Predicate {",
     "              public exec(vm: VM) {"]
    + ExecBody(s.body, c)
    + ["              }", "            }", "        );"]
  }

  // ---------------------------------------------------------------------------
  // Blocks and modules (codeGen.ts:121-231).

  /** The name a field prints under: an undefined name prints as "undefined". */
  function FieldName(f: Field): string {
    if f.FieldVar? then f.v.name else "undefined"
  }

  /** One line per field. */
  function FieldLines(fields: seq<Field>, before: string, after: string): (r: seq<string>)
    ensures |r| == |fields|
    ensures forall k :: 0 <= k < |fields| ==> r[k] == before + FieldName(fields[k]) + after
  {
    seq(|fields|, k requires 0 <= k < |fields| => before + FieldName(fields[k]) + after)
  }

  /** The name of a block's inner class. */
  function MethodName(b: BlockClass): string {
    "Method_" + b.name
  }

  /** The head of a block's class: declaration, fields, and the `exec` entering its first statement. */
  function BlockHead(b: BlockClass): seq<string>
    requires b.body != []
  {
    var name := MethodName(b);
    ["  public " + name + ": IC = createInnerClass(this).with(",
     "    (outerThis) =>",
     "      class implements Predicate {"]
    + FieldLines(Fields(b.fieldList), "        private ", ": Variable = new Variable();") + [""]
    + ["        public exec(vm: VM): Predicate {",
       "          return this." + Lower(name) + "_cu" + b.body[0].name + ".exec(vm);",
       "        }",
       ""]
  }

  /** The statement classes of a block from the `i`-th on, each followed by a blank line. */
  function StmtsText(b: BlockClass, i: nat): seq<string>
    requires i <= |b.body|
    decreases |b.body| - i
  {
    if i == |b.body| then []
    else
      var next := if i + 1 < |b.body| then Some(b.body[i + 1].name) else None;
      StmtText(b.body[i], MethodName(b), next) + [""] + StmtsText(b, i + 1)
  }

  /** The instance fields holding one object per statement class. */
  function InstanceLines(b: BlockClass): (r: seq<string>)
    ensures |r| == |b.body|
  {
    var name := MethodName(b);
    seq(|b.body|, k requires 0 <= k < |b.body| =>
      "        private " + Lower(name) + "_cu" + b.body[k].name + " = new this." + name + "_cu" + b.body[k].name + "();")
  }

  /**
   * `codeBlock`: reading the name of the first statement class throws when the
   * block has none.
   */
  function BlockText(b: BlockClass): Result<seq<string>> {
    if b.body == [] then Throw("Cannot read properties of undefined (reading 'name')")
    else Ok(BlockHead(b) + StmtsText(b, 0) + InstanceLines(b) + ["      }", "  );"])
  }

  /** `codeBlock` with its loop over the statement classes. */
  method CodeBlock(b: BlockClass) returns (r: Result<seq<string>>)
    ensures r == BlockText(b)
  {
    if b.body == [] {
      return Throw("Cannot read properties of undefined (reading 'name')");
    }
    var stmtContents: seq<string> := [];
    var i := 0;
    while i < |b.body|
      invariant 0 <= i <= |b.body|
      invariant stmtContents + StmtsText(b, i) == StmtsText(b, 0)
      decreases |b.body| - i
    {
      var next := if i + 1 < |b.body| then Some(b.body[i + 1].name) else None;
      var piece := StmtText(b.body[i], MethodName(b), next) + [""];
      assert StmtsText(b, i) == piece + StmtsText(b, i + 1);
      AppendAssoc(stmtContents, piece, StmtsText(b, i + 1));
      stmtContents := stmtContents + piece;
      i := i + 1;
    }
    assert stmtContents == StmtsText(b, 0);
    r := Ok(BlockHead(b) + stmtContents + InstanceLines(b) + ["      }", "  );"]);
  }

  /** The class of a module: fields, constructor and the `exec` that enters the blocks. */
  function ClassHead(m: ModuleClass): seq<string> {
    var fields := Fields(m.fieldList);
    ["export class " + Capitalise(m.name) + " implements Predicate {"]
    + FieldLines(fields, "  private ", ": Variable;") + ConstructorOpen
    + FieldLines(fields, "    ", ": Variable,") + ConstructorArgsClose
    + AssignLines(fields) + ConstructorClose
    + ExecLines(m.body) + ExecClose
  }

  /** The fixed lines between the sections of a class head. */
  const ConstructorOpen: seq<string> := ["  private cont: Predicate;", "", "  public constructor("]
  const ConstructorArgsClose: seq<string> := ["    cont: Predicate", "  ) {"]
  const ConstructorClose: seq<string> := ["    this.cont = cont;", "  }", "", "  public exec(vm: VM): Predicate {"]
  const ExecClose: seq<string> := ["  }", ""]

  /** The constructor's assignment of each field from the argument of the same name. */
  function AssignLines(fields: seq<Field>): (r: seq<string>)
    ensures |r| == |fields|
    ensures forall k :: 0 <= k < |fields| ==> r[k] == "    this." + FieldName(fields[k]) + " = " + FieldName(fields[k]) + ";"
  {
    seq(|fields|, k requires 0 <= k < |fields| => "    this." + FieldName(fields[k]) + " = " + FieldName(fields[k]) + ";")
  }

  /** One `return` per block, in order: only the first is ever reached. */
  function ExecLines(blocks: seq<BlockClass>): (r: seq<string>)
    ensures |r| == |blocks|
    ensures forall k :: 0 <= k < |blocks| ==> r[k] == "    return new this." + MethodName(blocks[k]) + "().exec(vm);"
  {
    seq(|blocks|, k requires 0 <= k < |blocks| => "    return new this." + MethodName(blocks[k]) + "().exec(vm);")
  }

  /** Lines already written, before the outcome of writing the rest. */
  function Prepend(prefix: seq<string>, r: Result<seq<string>>): (p: Result<seq<string>>)
    ensures r.Throw? ==> p == r
    ensures r.Ok? ==> p == Ok(prefix + r.value)
    ensures prefix == [] ==> p == r
  {
    match r
    case Throw(msg) => Throw(msg)
    case Ok(v) => assert [] + v == v; Ok(prefix + v)
  }

  /** The blocks of a module from the `i`-th on, each followed by a blank line. */
  function BlocksText(m: ModuleClass, i: nat): Result<seq<string>>
    requires i <= |m.body|
    decreases |m.body| - i
  {
    if i == |m.body| then Ok([])
    else
      match BlockText(m.body[i])
      case Throw(msg) => Throw(msg)
      case Ok(lines) =>
        match BlocksText(m, i + 1)
        case Throw(msg) => Throw(msg)
        case Ok(rest) => Ok(lines + [""] + rest)
  }

  /** One step of `codeClass`: what is written before the `i`-th block stays in front of it. */
  lemma BlocksAdvance(m: ModuleClass, i: nat, written: seq<string>, lines: Result<seq<string>>)
    requires i < |m.body| && lines == BlockText(m.body[i])
    requires BlocksText(m, 0) == Prepend(written, BlocksText(m, i))
    ensures lines.Throw? ==> BlocksText(m, 0) == Throw(lines.message)
    ensures lines.Ok? ==> BlocksText(m, 0) == Prepend(written + (lines.value + [""]), BlocksText(m, i + 1))
  {
    if lines.Ok? {
      var rest := BlocksText(m, i + 1);
      assert BlocksText(m, i) == Prepend(lines.value + [""], rest);
      PrependJoin(written, lines.value + [""], rest);
    }
  }

  /** `codeClass`. */
  function ClassText(m: ModuleClass): Result<seq<string>> {
    match BlocksText(m, 0)
    case Throw(msg) => Throw(msg)
    case Ok(blocks) => Ok(ClassHead(m) + blocks + ["}"])
  }

  /** `codeClass` with its loop over the blocks. */
  method CodeClass(m: ModuleClass) returns (r: Result<seq<string>>)
    ensures r == ClassText(m)
  {
    var blockContents: seq<string> := [];
    var i := 0;
    while i < |m.body|
      invariant 0 <= i <= |m.body|
      invariant BlocksText(m, 0) == Prepend(blockContents, BlocksText(m, i))
      decreases |m.body| - i
    {
      var lines := CodeBlock(m.body[i]);
      BlocksAdvance(m, i, blockContents, lines);
      if lines.Throw? {
        return Throw(lines.message);
      }
      blockContents := blockContents + (lines.value + [""]);
      i := i + 1;
    }
    assert BlocksText(m, i) == Ok([]);
    assert blockContents + [] == blockContents;
    r := Ok(ClassHead(m) + blockContents + ["}"]);
  }

  // ---------------------------------------------------------------------------
  // The generated `main` function (codeGen.ts:46-119).

  /** The fields whose variable is marked input; a field with undefined fields is not. */
  function InputFields(fields: seq<Field>): (r: seq<VarNode>)
    ensures |r| <= |fields|
  {
    if fields == [] then []
    else InputFields(fields[..|fields| - 1]) + (var f := fields[|fields| - 1]; if f.FieldVar? && f.v.isInput then [f.v] else [])
  }

  /** The fields whose variable is not marked input. */
  function OutputFields(fields: seq<VarNode>): (r: seq<VarNode>)
    ensures |r| <= |fields|
  {
    if fields == [] then []
    else OutputFields(fields[..|fields| - 1]) + (var f := fields[|fields| - 1]; if !f.isInput then [f] else [])
  }

  lemma {:induction false} InputFieldsSpec(fields: seq<Field>)
    ensures forall v :: v in InputFields(fields) <==> FieldVar(v) in fields && v.isInput
  {
    if fields != [] {
      InputFieldsSpec(fields[..|fields| - 1]);
      var f := fields[|fields| - 1];
      assert fields == fields[..|fields| - 1] + [f];
    }
  }

  lemma {:induction false} OutputFieldsSpec(fields: seq<VarNode>)
    ensures forall v :: v in OutputFields(fields) <==> v in fields && !v.isInput
  {
    if fields != [] {
      OutputFieldsSpec(fields[..|fields| - 1]);
      var f := fields[|fields| - 1];
      assert fields == fields[..|fields| - 1] + [f];
    }
  }

  /** The variables of fields none of which is hollow. */
  function FieldVars(fields: seq<Field>): (r: seq<VarNode>)
    requires forall k :: 0 <= k < |fields| ==> fields[k].FieldVar?
    ensures |r| == |fields| && forall k :: 0 <= k < |fields| ==> r[k] == fields[k].v
  {
    seq(|fields|, k requires 0 <= k < |fields| && fields[k].FieldVar? => fields[k].v)
  }

  /** The initial value given to a field's cell. */
  function InitialValue(f: VarNode): string {
    if f.isInput then "input._" + f.name
    else if f.valueType.kind == NumberType then "0"
    else if f.valueType.kind == StringType then "\"\""
    else ""
  }

  function TypeText(f: VarNode): string {
    NewTypeName(f.valueType.kind)
  }

  /** The declaration of `main`: an `input` record of the input fields when there are any. */
  function MainDecl(inputs: seq<VarNode>): (r: seq<string>)
    ensures inputs == [] ==> r == ["export const main = (", ") => {"]
    ensures inputs != [] ==> |r| == |inputs| + 4 && r[1] == "input: {" && r[|inputs| + 2] == "}"
  {
    var inputDecl :=
      if inputs != [] then ["input: {"] + seq(|inputs|, k requires 0 <= k < |inputs| => "  _" + inputs[k].name + ": " + TypeText(inputs[k]) + ";") + ["}"]
      else [];
    ["export const main = ("] + inputDecl + [") => {"]
  }

  /** The record of one solution: one line per non-input field. */
  function ResultLines(outputs: seq<VarNode>): (r: seq<string>)
    ensures |r| == |outputs| + 2
  {
    ["const result: {"] + seq(|outputs|, k requires 0 <= k < |outputs| => "  " + outputs[k].name + ": " + TypeText(outputs[k]) + ";") + ["}[] = [];"]
  }

  /** `genMain`: it throws when there is no module, or when a field has undefined fields. */
  function MainText(prog: Program): Result<seq<string>> {
    var fields := ProgramFields(prog.body);
    if prog.body == [] then Throw("Cannot read properties of undefined (reading 'name')")
    else if exists k :: 0 <= k < |fields| && fields[k].Hollow? then Throw("Cannot read properties of undefined (reading 'type')")
    else
      var vars := FieldVars(fields);
      var outputs := OutputFields(vars);
      var setup :=
        ["const vm: VM = new VM();"]
        + seq(|vars|, k requires 0 <= k < |vars| => "const _" + vars[k].name + ": Variable = new Variable(" + InitialValue(vars[k]) + ");")
        + ["const p: Predicate = new " + Capitalise(prog.body[0].name) + "("
           + Lists.JoinComma(seq(|vars|, k requires 0 <= k < |vars| => "_" + vars[k].name)) + ", Predicate.success);"];
      var run :=
        ["for (let s: boolean = vm.call(p); s === true; s = vm.redo()) {", "  result.push({"]
        + seq(|outputs|, k requires 0 <= k < |outputs| => "    " + outputs[k].name + ": _" + outputs[k].name + "." + Getter(outputs[k].valueType) + "(),")
        + ["})", "}"];
      Ok(MainDecl(InputFields(fields)) + setup + [""] + ResultLines(outputs) + [""] + run + ["", "  return result;", "}"])
  }

  // ---------------------------------------------------------------------------
  // The generator object (codeGen.ts:10-44).

  const Imports: seq<string> := [
    "import { type IC, createInnerClass } from \"./util\";",
    "import { Predicate } from \"./Predicate\";",
    "import { Variable } from \"./Variable\";",
    "import { List } from \"./List\";",
    "import { VM } from \"./VM\";",
    "import { For } from \"./For\";",
    "import { Member } from \"./Member\";",
    "import { Test } from \"./Test\";"
  ]

  /** The classes of the modules from the `i`-th on, each followed by a blank line. */
  function ClassesText(modules: seq<ModuleClass>, i: nat): Result<seq<string>>
    requires i <= |modules|
    decreases |modules| - i
  {
    if i == |modules| then Ok([])
    else
      match ClassText(modules[i])
      case Throw(msg) => Throw(msg)
      case Ok(lines) =>
        match ClassesText(modules, i + 1)
        case Throw(msg) => Throw(msg)
        case Ok(rest) => Ok(lines + [""] + rest)
  }

  lemma ClassesStep(modules: seq<ModuleClass>, i: nat)
    requires i < |modules|
    ensures ClassText(modules[i]).Throw? ==> ClassesText(modules, i) == ClassText(modules[i])
    ensures ClassText(modules[i]).Ok? ==> ClassesText(modules, i) == Prepend(ClassText(modules[i]).value + [""], ClassesText(modules, i + 1))
  {
  }

  /** One step of `addClasses`: what is written before the `i`-th class stays in front of it. */
  lemma ClassesAdvance(modules: seq<ModuleClass>, i: nat, written: seq<string>, lines: Result<seq<string>>)
    requires i < |modules| && lines == ClassText(modules[i])
    requires ClassesText(modules, 0) == Prepend(written, ClassesText(modules, i))
    ensures lines.Throw? ==> ClassesText(modules, 0) == Throw(lines.message)
    ensures lines.Ok? ==> ClassesText(modules, 0) == Prepend(written + (lines.value + [""]), ClassesText(modules, i + 1))
  {
    ClassesStep(modules, i);
    if lines.Ok? {
      PrependJoin(written, lines.value + [""], ClassesText(modules, i + 1));
    }
  }

  lemma PrependJoin(a: seq<string>, b: seq<string>, r: Result<seq<string>>)
    ensures Prepend(a, Prepend(b, r)) == Prepend(a + b, r)
  {
    if r.Ok? {
      assert a + (b + r.value) == (a + b) + r.value;
    }
  }

  /** The lines of the generated module: imports, classes, then `main`. */
  function ProgramLines(prog: Program): (r: Result<seq<string>>)
    ensures r.Ok? ==> Imports + [""] <= r.value
  {
    match ClassesText(prog.body, 0)
    case Throw(msg) => Throw(msg)
    case Ok(classes) =>
      match MainText(prog)
      case Throw(msg) => Throw(msg)
      case Ok(main) => Ok(Imports + [""] + classes + main)
  }

  /** `codeGen(prog)`: the lines joined with newlines. */
  function Generated(prog: Program): Result<string> {
    match ProgramLines(prog)
    case Throw(msg) => Throw(msg)
    case Ok(lines) => Ok(Utils.JoinLines(lines))
  }

  class CodeGenerator {
    var prog: Program
    var output: seq<string>

    constructor (p: Program)
      ensures prog == p && output == []
    {
      prog := p;
      output := [];
    }

    method AddImports()
      modifies this
      ensures prog == old(prog) && output == old(output) + Imports + [""]
    {
      output := output + Imports + [""];
    }

    /** `addClasses`: one class per module, each followed by a blank line; a throw leaves the rest unwritten. */
    method AddClasses() returns (thrown: Option<string>)
      modifies this
      ensures prog == old(prog)
      ensures ClassesText(prog.body, 0).Throw? ==> thrown == Some(ClassesText(prog.body, 0).message)
      ensures ClassesText(prog.body, 0).Ok? ==> thrown == None && output == old(output) + ClassesText(prog.body, 0).value
    {
      var modules := prog.body;
      ghost var written: seq<string> := [];
      var i := 0;
      while i < |modules|
        invariant 0 <= i <= |modules| && prog == old(prog) && modules == prog.body
        invariant output == old(output) + written
        invariant ClassesText(modules, 0) == Prepend(written, ClassesText(modules, i))
        decreases |modules| - i
      {
        ghost var piece;
        thrown, piece := AddClass(modules, i, written);
        if thrown.Some? {
          return;
        }
        AppendAssoc(old(output), written, piece);
        written := written + piece;
        i := i + 1;
      }
      assert written + [] == written;
      return None;
    }

    /** One turn of the loop of `addClasses`: the class of `modules[i]` and a blank line. */
    method AddClass(modules: seq<ModuleClass>, i: nat, ghost written: seq<string>) returns (thrown: Option<string>, ghost piece: seq<string>)
      requires i < |modules|
      requires ClassesText(modules, 0) == Prepend(written, ClassesText(modules, i))
      modifies this
      ensures prog == old(prog)
      ensures thrown.Some? ==> ClassesText(modules, 0) == Throw(thrown.value)
      ensures thrown.None? ==> output == old(output) + piece
      ensures thrown.None? ==> ClassesText(modules, 0) == Prepend(written + piece, ClassesText(modules, i + 1))
    {
      var lines := CodeClass(modules[i]);
      ClassesAdvance(modules, i, written, lines);
      if lines.Throw? {
        return Some(lines.message), [];
      }
      output := output + (lines.value + [""]);
      piece := lines.value + [""];
      thrown := None;
    }

    method GenMain() returns (thrown: Option<string>)
      modifies this
      ensures prog == old(prog)
      ensures MainText(prog).Throw? ==> thrown == Some(MainText(prog).message)
      ensures MainText(prog).Ok? ==> thrown == None && output == old(output) + MainText(prog).value
    {
      var lines := MainText(prog);
      if lines.Throw? {
        return Some(lines.message);
      }
      output := output + lines.value;
      return None;
    }

    /** `generate`, on a fresh generator. */
    method Generate() returns (r: Result<string>)
      requires output == []
      modifies this
      ensures prog == old(prog) && r == Generated(prog)
    {
      AddImports();
      assert output == Imports + [""];
      var thrown := AddClasses();
      if thrown.Some? {
        assert ProgramLines(prog) == Throw(thrown.value);
        return Throw(thrown.value);
      }
      ghost var head := output;
      thrown := GenMain();
      if thrown.Some? {
        assert ProgramLines(prog) == Throw(thrown.value);
        return Throw(thrown.value);
      }
      assert ProgramLines(prog) == Ok(head + MainText(prog).value);
      r := Ok(Utils.JoinLines(output));
    }
  }
}
