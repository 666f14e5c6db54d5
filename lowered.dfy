/**
 * The tree the converter hands to the code generator (src/lib/compiler/types/newAst.ts
 * and the NewType union of types/type.ts).
 *
 * The source uses one loose union for every level; the converter only ever builds
 * a module class holding block classes holding statement classes holding one
 * method body, so the levels are separate datatypes here. The converter throws on
 * every dummy node, so no dummy node reaches this tree.
 */
module Lowered {
  import opened Base
  import Syntax

  datatype NewTypeKind = NumberType | BooleanType | StringType | ArrayType | ObjectType | DummyNewType

  /** The `type` string of a converted type, as the generated code prints it. */
  function NewTypeName(k: NewTypeKind): (s: string)
    ensures |s| > 0
  {
    match k
    case NumberType => "number"
    case BooleanType => "boolean"
    case StringType => "string"
    case ArrayType => "array"
    case ObjectType => "object"
    case DummyNewType => "dummy"
  }

  /** `members` is empty except for array and object types. */
  datatype NewType = NewType(kind: NewTypeKind, token: Syntax.Token, members: seq<NewType>)

  datatype VarNode = VarNode(token: Syntax.Token, isInParam: bool, isInput: bool, name: string, valueType: NewType)

  /**
   * A converted vector member. The converter turns every member into a variable
   * node by copying the fields of its converted value; when the value is not a
   * variable those fields are `undefined` (`Hollow`).
   */
  datatype Field = FieldVar(v: VarNode) | Hollow(token: Syntax.Token)

  datatype Expr =
    | Num(token: Syntax.Token)
    | Var(v: VarNode)
    | ListLit(token: Syntax.Token, elems: seq<Expr>)
    | ObjectLit(token: Syntax.Token, members: seq<Field>)
    | Binary(token: Syntax.Token, op: Syntax.BinOp, lhs: Expr, rhs: Expr)
    | Unary(token: Syntax.Token, uop: Syntax.UnOp, operand: Expr)
    | Sqrt(token: Syntax.Token, arg: Expr)

  /** The generator of a `return` node; `token` and `target` are the assigned expression's. */
  datatype Generator =
    | ForGen(token: Syntax.Token, target: Expr, from: Expr, upper: Expr, inc: Expr)
    | SelectGen(token: Syntax.Token, target: Expr, list: Expr)

  /**
   * Statements of a method body. `WhenNode` and `CallNode` are what the converter
   * makes of `when` and `call` statements; their `type` is `undefined` in the
   * source, as the constant table lacks those kinds.
   */
  datatype StmtNode =
    | IfNode(token: Syntax.Token, cond: Expr)
    | AssignNode(token: Syntax.Token, lhs: Expr, rhs: Expr)
    | ReturnNode(token: Syntax.Token, value: Generator)
    | WhenNode(token: Syntax.Token, cond: Expr)
    | CallNode(token: Syntax.Token, moduleName: string, input: Expr, output: Expr)

  /** A parameter: the variables it declares. */
  datatype Param = Param(token: Syntax.Token, value: seq<Field>)

  /** A scheduled statement block: a class with one method. */
  datatype StmtClass = StmtClass(token: Syntax.Token, name: string, body: seq<StmtNode>)

  /** A method block of a module: its variables become one-variable parameters. */
  datatype BlockClass = BlockClass(token: Syntax.Token, name: string, fieldList: seq<Param>, body: seq<StmtClass>, guard: Option<Expr>)

  datatype ModuleClass = ModuleClass(token: Syntax.Token, name: string, fieldList: seq<Param>, body: seq<BlockClass>)

  datatype Program = Program(body: seq<ModuleClass>)

  /** The fields of a list of parameters, in order. */
  function Fields(params: seq<Param>): (r: seq<Field>)
    ensures params == [] ==> r == []
  {
    if params == [] then [] else Fields(params[..|params| - 1]) + params[|params| - 1].value
  }

  /** The fields of every parameter of every module, in order. */
  function ProgramFields(modules: seq<ModuleClass>): seq<Field> {
    if modules == [] then [] else ProgramFields(modules[..|modules| - 1]) + Fields(modules[|modules| - 1].fieldList)
  }
}
