/**
 * Tokens, diagnostics and the syntax tree the parser builds
 * (src/lib/compiler/types/token.ts, types/error.ts, types/type.ts,
 * types/ast.ts and the TOKEN_TYPE, NODE_TYPE, OP_TYPE tables of constant.ts).
 * The string-tagged unions of the source become closed datatypes; the tag
 * strings the compiler prints in messages are given by the *Name functions.
 */
module Syntax {
  import opened Base

  datatype Position = Position(line: int, character: int)

  datatype TokenKind = Reserved | IdentVar | IdentFunc | AtomLit | StringLit | Number | Newline | Eof

  /** The TOKEN_TYPE string of a kind, as `expect` prints it. */
  function KindName(k: TokenKind): (s: string)
    ensures |s| > 0
  {
    match k
    case Reserved => "reserved"
    case IdentVar => "ident-var"
    case IdentFunc => "ident-func"
    case AtomLit => "literal-atom"
    case StringLit => "string"
    case Number => "number"
    case Newline => "new-line"
    case Eof => "EOF"
  }

  datatype Token = Token(kind: TokenKind, pos: Position, value: string)

  datatype CompileError = CompileError(message: string, pos: Position)

  // ---------------------------------------------------------------------------
  // Types of variables (types/type.ts).

  datatype TypeKind = Integer | Real | AtomType | BoolType | ListType | VectorType | DummyType

  function TypeKindName(k: TypeKind): (s: string)
    ensures |s| > 0
  {
    match k
    case Integer => "integer"
    case Real => "real"
    case AtomType => "atom"
    case BoolType => "bool"
    case ListType => "list"
    case VectorType => "vector"
    case DummyType => "dummy"
  }

  /** A declared type; `members` is empty except for list and vector types. */
  datatype Type = Type(kind: TypeKind, token: Token, members: seq<Type>)

  // ---------------------------------------------------------------------------
  // The syntax tree (types/ast.ts).

  datatype BinOp = Add | Sub | Mul | Div | Mod | Pow | Eq | Ne | Lt | Le | And | Or

  datatype UnOp = Not | Neg

  datatype VarNode = VarNode(name: string, valueType: Type, token: Token, isInput: bool)

  datatype Expr =
    | Num(token: Token)
    | Str(token: Token)
    | AtomExpr(token: Token)
    | Var(v: VarNode)
    | ListExpr(token: Token, elems: seq<Expr>)
    | Vector(token: Token, members: seq<Member>)
    | Binary(token: Token, op: BinOp, lhs: Expr, rhs: Expr)
    | Unary(token: Token, uop: UnOp, operand: Expr)
    | Sqrt(token: Token, arg: Expr)
    | Exp(token: Token, arg: Expr)
    | Dummy(token: Token)

  /** A member of a vector literal: a variable (possibly annotated) or any unary expression. */
  datatype Member = Member(token: Token, value: Expr)

  /** The right-hand side of an assignment: a generator or an expression. */
  datatype BuildIn =
    | ForRange(token: Token, from: Expr, upper: Expr, inc: Expr)
    | Select(token: Token, list: Expr)
    | Calc(expr: Expr)

  datatype StmtExpr =
    | Assign(token: Token, lhs: Expr, rhs: BuildIn)
    | TestStmt(token: Token, cond: Expr)
    | When(token: Token, cond: Expr)
    | CallStmt(token: Token, moduleName: string, input: Expr, output: Expr)

  datatype StmtNode = Stmt(token: Token, stmt: StmtExpr) | DummyStmt(token: Token)

  datatype BlockNode =
    | Block(token: Token, body: seq<StmtNode>, varList: seq<VarNode>, guard: Option<Expr>)
    | DummyBlock(token: Token)

  datatype ParamNode =
    | AtomParam(token: Token)
    | VectorParam(token: Token, members: seq<Member>)
    | DummyParam(token: Token)

  datatype ModuleNode =
    | Module(token: Token, name: string, params: seq<ParamNode>, body: seq<BlockNode>, localList: seq<VarNode>)
    | DummyModule(token: Token)

  datatype Program = Program(body: seq<ModuleNode>)
}
