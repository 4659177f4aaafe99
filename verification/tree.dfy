/**
 * The syntax tree the parser of compiler/Parser.ts builds: only the node
 * kinds that parser constructs. A field the parser may leave null is an Option.
 */
module Tree {
  import opened Wrappers
  import opened Tokens

  /** A dotted name with the location of its first part. */
  datatype Name = Name(parts: seq<string>, loc: Location)

  datatype Annotation = Annotation(name: Option<Name>)

  datatype TypeReference = TypeReference(name: Option<Name>)

  datatype AccessMode = Public | Protected | Private

  datatype UnaryDirection = PrefixOp | PostfixOp

  datatype FormalParameter = FormalParameter(name: Option<Name>, typ: TypeReference)

  datatype Expr =
    | Binary(left: Expr, op: TokenKind, right: Option<Expr>)
    | Unary(operand: Option<Expr>, op: TokenKind, direction: UnaryDirection, extra: Option<Expr>)
    | AtomicExpr(inner: Option<Expr>)
    | NameLiteral(name: Option<Name>)
    | NullLiteral
    | BooleanLiteral(b: bool)
    | IntegerLiteral(digits: string, radix: nat)
    | FloatLiteral(text: string)
    | StringLiteral(text: string)
    | ArgumentList(args: seq<Argument>)
    | ExpressionList(items: seq<Option<Expr>>)

  datatype Argument = Argument(name: Option<Name>, value: Option<Expr>)

  datatype Property = Property(annots: seq<Annotation>, access: AccessMode, name: Name,
                               typ: Option<TypeReference>, init: Option<Expr>)

  datatype Stmt =
    | TypeImport(path: Name, wildcard: bool, alias: Option<Name>)
    | Namespace(annots: Option<seq<Annotation>>, nsName: Name, body: seq<Stmt>)
    | StorageDeclaration(annots: Option<seq<Annotation>>, varName: Option<Name>, typ: Option<TypeReference>,
                         isConst: bool, init: Option<Expr>)
    | TypeDeclaration(annots: Option<seq<Annotation>>, typeName: Name, properties: seq<Option<Property>>)
    | Function(annots: Option<seq<Annotation>>, funName: Option<Name>, returnType: Option<TypeReference>,
               params: Option<seq<FormalParameter>>, funBody: Option<Stmt>)
    | BlockStmt(items: seq<Option<Stmt>>)
    | IfThenElse(condition: Option<Expr>, thenSide: Stmt, elseSide: Option<Stmt>)
    | ForEach(storage: Stmt, iterable: Option<Expr>, loopBody: Option<Stmt>)
    | ReturnStmt(value: Option<Expr>)
    | ExpressionStmt(expr: Expr)

  datatype CompilationUnit = CompilationUnit(name: string, statements: seq<Stmt>)
}
