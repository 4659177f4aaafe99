/**
 * The syntax tree that the type inference pass of compiler/typeinf.ts walks.
 * Only the node kinds that pass handles are present; each field is one the
 * pass reads or writes.
 */
module Ast {
  import opened Wrappers

  /** The shared type objects `TypeRef.STRING`, `NUMBER`, `BOOLEAN`, `VOID`, `ANY` and `NULL`. */
  datatype Builtin = StringType | NumberType | BooleanType | VoidType | AnyType | NullType

  /**
   * A type reference. The built-in types are single shared objects. Every type
   * written in the program is an object of its own, told apart by `id`, so two
   * written types are the same object exactly when they are equal values.
   */
  datatype TypeRef = Builtin(kind: Builtin) | Written(name: string, id: nat)

  const STRING: TypeRef := Builtin(StringType)
  const NUMBER: TypeRef := Builtin(NumberType)
  const BOOLEAN: TypeRef := Builtin(BooleanType)
  const VOID: TypeRef := Builtin(VoidType)
  const ANY: TypeRef := Builtin(AnyType)
  const NULL: TypeRef := Builtin(NullType)

  /** The text of a type reference (`type.name.toString()`). */
  function TypeName(t: TypeRef): (name: string)
    ensures t.Written? ==> name == t.name
    ensures t.Builtin? ==>
              && (name == "string" <==> t.kind == StringType) && (name == "number" <==> t.kind == NumberType)
              && (name == "boolean" <==> t.kind == BooleanType) && (name == "void" <==> t.kind == VoidType)
              && (name == "any" <==> t.kind == AnyType) && (name == "null" <==> t.kind == NullType)
  {
    match t
    case Written(name, _) => name
    case Builtin(kind) =>
      match kind
      case StringType => "string"
      case NumberType => "number"
      case BooleanType => "boolean"
      case VoidType => "void"
      case AnyType => "any"
      case NullType => "null"
  }

  /** The operator tokens the checks of the pass tell apart; every other operator is `OtherOperator`. */
  datatype Operator = Plus | PlusEqual | Equal | OtherOperator(code: nat)

  datatype Expr =
    | StringLiteral
    | NumberLiteral
    | BoolLiteral
    | NullLiteral
    | NameLiteral(value: string)
    | Group(expr: Expr)
    | LogicalExpr(left: Expr, oper: Operator, right: Expr)
    | BinaryExpr(left: Expr, oper: Operator, right: Expr)
    | AssignExpr(left: Expr, oper: Operator, right: Expr)
    | UnaryExpr(expr: Expr)
    | CallExpr(callee: Expr, args: seq<Expr>)
    | ArrayExpr(values: seq<Expr>)
    | ArrayAccessExpr(callee: Expr, index: Expr)
    | FieldExpr(callee: Expr, field: string)
    | NewExpr(typ: TypeRef)

  datatype Parameter = Parameter(name: string, typ: Option<TypeRef>)

  /** An import: the already resolved path of the imported unit and the imported names. */
  datatype Import = Import(source: string, names: seq<string>)

  datatype Stmt =
    | BlockStmt(stmts: seq<Stmt>)
    | NamespaceStmt(name: string, stmts: seq<Stmt>)
    | ClassStmt(name: string, stmts: seq<Stmt>)
    | FunctionStmt(name: string, isGeneric: bool, typ: Option<TypeRef>, params: seq<Parameter>, body: Option<Stmt>)
    | VariableStmt(name: string, typ: Option<TypeRef>, init: Option<Expr>)
    | PropertyStmt(name: string, typ: Option<TypeRef>, init: Option<Expr>)
    | ExprStmt(expr: Expr)
    | ReturnStmt(result: Option<Expr>)
    | ImportStmt(imp: Import)

  /** A compilation unit and its symbol tables by name. */
  datatype Unit = Unit(imports: seq<Import>, stmts: seq<Stmt>,
                       variables: map<string, Stmt>, functions: map<string, Stmt>, types: map<string, Stmt>)
}
