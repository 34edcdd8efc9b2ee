/** The syntax tree the HLSL back end consumes. The parser builds it; the back
    end only reads it. */
module Ast {

  datatype Option<T> = None | Some(value: T)

  /** Expression nodes. A bare string in the tree is a literal token; any
      object the back end does not recognise is printed with `str()`, which
      `Other` carries as its text. */
  datatype Expr =
    | Lit(text: string)
    | Var(name: string, vtype: Option<string>)
    | BinOp(left: Expr, op: string, right: Expr)
    | Call(callee: string, args: seq<Expr>)
    | Member(obj: Expr, member: string)
    | Other(repr: string)

  /** Statement nodes. An empty `elseBody` stands for both a missing else
      branch and an empty one: the back end tests its truthiness only. Any
      expression may stand where a statement is expected (`ExprStmt`). */
  datatype Stmt =
    | Assign(target: Expr, value: Expr)
    | If(cond: Expr, thenBody: seq<Stmt>, elseBody: seq<Stmt>)
    | For(init: Stmt, cond: Expr, update: Stmt, body: seq<Stmt>)
    | Return(value: Expr)
    | ExprStmt(expr: Expr)
  {
    /** The statements rendered as one terminated line of text. */
    predicate IsSimple() { Assign? || Return? || ExprStmt? }
  }

  /** A (type, name) pair: a shader input or output, or a function parameter. */
  datatype Decl = Decl(vtype: string, name: string)

  datatype Function = Function(name: string, params: seq<Decl>, returnType: string, body: seq<Stmt>)

  datatype Shader = Shader(inputs: seq<Decl>, outputs: seq<Decl>, functions: seq<Function>)

  /** What the driver hands to the back end: a shader, or some other node. */
  datatype Root = ShaderRoot(shader: Shader) | OtherNode
}
